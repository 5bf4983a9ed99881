/** What a mapping must meet to be planned, said without the planner, and what its target then holds. */
module LineRepairRules {
  import opened Wrappers
  import opened LineRepair
  import opened LineRepairTheorems

  ghost predicate HasText(s: string) {
    exists i :: 0 <= i < |s| && s[i] != ' ' && s[i] != '\t' && s[i] != '\n' && s[i] != '\r'
  }

  predicate Fits(inv: Invoice, uid: string, business: nat) {
    inv.uid == uid && inv.business == business
  }

  /** Of all the invoices just the one at `k` has that uid in the business. */
  predicate OnlyAt(rows: seq<Invoice>, k: nat, uid: string, business: nat) {
    k < |rows| && forall j :: 0 <= j < |rows| ==> (Fits(rows[j], uid, business) <==> j == k)
  }

  ghost predicate OnlyOne(rows: seq<Invoice>, inv: Invoice, uid: string, business: nat) {
    exists k: nat :: OnlyAt(rows, k, uid, business) && rows[k] == inv
  }

  ghost predicate Named(store: Store, m: Mapping, b: nat) {
    && HasText(m.bizId) && HasText(m.target) && HasText(m.donor) && HasText(m.reason)
    && m.bizId in store.businesses && store.businesses[m.bizId] == [b]
  }

  /** The mapping names one business, and one target and one donor in it. */
  ghost predicate Mapped(store: Store, m: Mapping, b: nat, t: Invoice, d: Invoice) {
    && Named(store, m, b)
    && OnlyOne(store.invoices, t, m.target, b) && OnlyOne(store.invoices, d, m.donor, b)
  }

  predicate SameHeaders(h: Headers, k: Headers) {
    && h.subtotal == k.subtotal && h.total == k.total
    && h.cgst == k.cgst && h.sgst == k.sgst && h.igst == k.igst && h.cess == k.cess
    && h.discount == k.discount && h.roundOff == k.roundOff && h.cashDiscount == k.cashDiscount
  }

  predicate SameIdentity(a: Identity, b: Identity) {
    && a.kind == b.kind && a.customer == b.customer && a.gstin == b.gstin && a.place == b.place
    && a.inclusive == b.inclusive
  }

  ghost predicate OfBusiness(store: Store, l: Line, b: nat) {
    && (l.business == None || l.business == Some(b))
    && forall p :: l.product == Some(p) ==> p in store.products && store.products[p] == b
  }

  ghost predicate Reproduce(lines: seq<Line>, h: Headers) {
    && -1 <= SumBy(lines, (l: Line) => l.taxable) - h.subtotal <= 1
    && -1 <= SumBy(lines, (l: Line) => l.cgst) - h.cgst <= 1
    && -1 <= SumBy(lines, (l: Line) => l.sgst) - h.sgst <= 1
    && -1 <= SumBy(lines, (l: Line) => l.igst) - h.igst <= 1
    && -1 <= SumBy(lines, (l: Line) => l.cess) - h.cess <= 1
  }

  ghost predicate ReproduceTotal(lines: seq<Line>, h: Headers) {
    -1 <= SumBy(lines, (l: Line) => l.total) - (h.total - h.roundOff + h.cashDiscount) <= 1
  }

  predicate HasLinesAt(store: Store, id: nat) {
    id in store.lines && |store.lines[id]| > 0
  }

  /** What can be wrong with a mapping that names its documents, in the order of the checks. */
  ghost function Faults(store: Store, b: nat, t: Invoice, d: Invoice, done: set<nat>): seq<(bool, Refusal)> {
    var lines := if d.id in store.lines then store.lines[d.id] else [];
    [(t.id == d.id || t.id in done, SameOrRepeated),
     (HasLinesAt(store, t.id), HasLines),
     (!HasLinesAt(store, d.id), NoEvidence),
     (!SameHeaders(t.headers, d.headers), HeadersDisagree),
     (!SameIdentity(t.identity, d.identity), IdentitiesDisagree),
     (!(forall l :: l in lines ==> OfBusiness(store, l, b)), UnverifiedLine),
     (!Reproduce(lines, t.headers), SumsDisagree),
     (!ReproduceTotal(lines, t.headers), TotalDisagrees)]
  }

  ghost predicate FirstFault(faults: seq<(bool, Refusal)>, e: Refusal) {
    exists k :: 0 <= k < |faults| && faults[k] == (true, e) && forall j :: 0 <= j < k ==> !faults[j].0
  }

  ghost predicate NoFault(faults: seq<(bool, Refusal)>) {
    forall k :: 0 <= k < |faults| ==> !faults[k].0
  }

  // ---- the sums, and finding an invoice ----

  /** The sum over no lines, over one, and over two lists of lines. */
  lemma {:induction false} SumsAddUp(a: seq<Line>, b: seq<Line>, f: Line -> int)
    ensures SumBy([], f) == 0 && (forall l :: SumBy([l], f) == f(l))
    ensures SumBy(a + b, f) == SumBy(a, f) + SumBy(b, f)
  {
    if b == [] {
      assert a + b == a;
    } else {
      var n := |b| - 1;
      SumsAddUp(a, b[..n], f);
      assert (a + b)[..|a + b| - 1] == a + b[..n];
    }
  }

  lemma {:induction false} NoneFound(rows: seq<Invoice>, uid: string, business: nat)
    ensures Find(rows, uid, business) == [] <==> forall j :: 0 <= j < |rows| ==> !Fits(rows[j], uid, business)
  {
    if rows != [] {
      NoneFound(rows[1..], uid, business);
      assert forall j :: 1 <= j < |rows| ==> rows[j] == rows[1..][j - 1];
    }
  }

  lemma {:induction false} FindsTheOnlyOne(rows: seq<Invoice>, uid: string, business: nat, k: nat)
    requires OnlyAt(rows, k, uid, business)
    ensures Find(rows, uid, business) == [rows[k]]
  {
    var rest := rows[1..];
    if k == 0 {
      NoneFound(rest, uid, business);
    } else {
      assert OnlyAt(rest, k - 1, uid, business);
      FindsTheOnlyOne(rest, uid, business, k - 1);
    }
  }

  lemma {:induction false} FoundIsTheOnlyOne(rows: seq<Invoice>, uid: string, business: nat) returns (k: nat)
    requires |Find(rows, uid, business)| == 1
    ensures OnlyAt(rows, k, uid, business)
  {
    var rest := rows[1..];
    NoneFound(rest, uid, business);
    if Fits(rows[0], uid, business) {
      k := 0;
      assert forall j :: 1 <= j < |rows| ==> rows[j] == rest[j - 1];
    } else {
      var i := FoundIsTheOnlyOne(rest, uid, business);
      k := i + 1;
      assert forall j :: 1 <= j < |rows| ==> rows[j] == rest[j - 1];
    }
  }

  lemma BlankIff(s: string)
    ensures Blank(s) <==> !HasText(s)
  {
  }

  lemma NamedIff(store: Store, m: Mapping, b: nat)
    ensures Named(store, m, b) <==>
            && !Blank(m.bizId) && !Blank(m.target) && !Blank(m.donor) && !Blank(m.reason)
            && m.bizId in store.businesses && |store.businesses[m.bizId]| == 1 && store.businesses[m.bizId][0] == b
  {
    BlankIff(m.bizId);
    BlankIff(m.target);
    BlankIff(m.donor);
    BlankIff(m.reason);
  }

  lemma FindOnlyOne(rows: seq<Invoice>, uid: string, business: nat, inv: Invoice)
    requires OnlyOne(rows, inv, uid, business)
    ensures Find(rows, uid, business) == [inv]
  {
    var k: nat :| OnlyAt(rows, k, uid, business) && rows[k] == inv;
    FindsTheOnlyOne(rows, uid, business, k);
  }

  lemma LinesVerified(store: Store, b: nat, lines: seq<Line>)
    ensures (exists i :: 0 <= i < |lines| && !Verified(store, b, lines[i])) <==>
            !(forall l :: l in lines ==> OfBusiness(store, l, b))
  {
    forall l: Line
      ensures Verified(store, b, l) <==> OfBusiness(store, l, b)
    {
      assert l.product.Some? ==> l.product == Some(l.product.value);
    }
    if i :| 0 <= i < |lines| && !Verified(store, b, lines[i]) {
      assert lines[i] in lines && !OfBusiness(store, lines[i], b);
    }
  }

  lemma MappedIsJudged(store: Store, m: Mapping, done: set<nat>, b: nat, t: Invoice, d: Invoice)
    requires Mapped(store, m, b, t, d)
    ensures PlanOne(store, m, done) == Judged(store, b, t, d, done)
  {
    NamedIff(store, m, b);
    FindOnlyOne(store.invoices, m.target, b, t);
    FindOnlyOne(store.invoices, m.donor, b, d);
  }

  lemma JudgedByFaults(store: Store, b: nat, t: Invoice, d: Invoice, done: set<nat>)
    ensures var faults := Faults(store, b, t, d, done);
            match Judged(store, b, t, d, done)
            case Ok(plan) => NoFault(faults) && plan == Plan(b, t.id, LinesOf(store, d.id))
            case Err(e) => FirstFault(faults, e)
  {
    LinesVerified(store, b, LinesOf(store, d.id));
    var faults, plan := Faults(store, b, t, d, done), Judged(store, b, t, d, done);
    if plan.Err? {
      var k := match plan.error
        case SameOrRepeated => 0
        case HasLines => 1
        case NoEvidence => 2
        case HeadersDisagree => 3
        case IdentitiesDisagree => 4
        case UnverifiedLine => 5
        case SumsDisagree => 6
        case _ => 7;
      assert faults[k] == (true, plan.error);
    }
  }

  /** A mapping that names its documents is refused for the first of its faults, and planned when it has
      none: the lines of the donor for the target. */
  lemma RefusedForTheFirstFault(store: Store, m: Mapping, done: set<nat>, b: nat, t: Invoice, d: Invoice)
    requires Mapped(store, m, b, t, d)
    ensures var faults := Faults(store, b, t, d, done);
            match PlanOne(store, m, done)
            case Ok(plan) => NoFault(faults) && plan == Plan(b, t.id, LinesOf(store, d.id))
            case Err(e) => FirstFault(faults, e)
  {
    MappedIsJudged(store, m, done, b, t, d);
    JudgedByFaults(store, b, t, d, done);
  }

  ghost predicate HasTexts(m: Mapping) {
    HasText(m.bizId) && HasText(m.target) && HasText(m.donor) && HasText(m.reason)
  }

  /** A mapping that does not name its documents is refused for what it lacks. */
  lemma RefusedWhenNotMapped(store: Store, m: Mapping, done: set<nat>)
    ensures !HasTexts(m) ==> PlanOne(store, m, done) == Err(BlankMapping)
    ensures HasTexts(m) && (forall b: nat :: !Named(store, m, b)) ==> PlanOne(store, m, done) == Err(UnknownBusiness)
    ensures forall b: nat :: Named(store, m, b) && (forall t, d :: !Mapped(store, m, b, t, d)) ==>
              PlanOne(store, m, done) == Err(UnknownInvoice)
  {
    BlankIff(m.bizId);
    BlankIff(m.target);
    BlankIff(m.donor);
    BlankIff(m.reason);
    if HasTexts(m) && m.bizId in store.businesses && |store.businesses[m.bizId]| == 1 {
      var b := store.businesses[m.bizId][0];
      NamedIff(store, m, b);
      if |Find(store.invoices, m.target, b)| == 1 && |Find(store.invoices, m.donor, b)| == 1 {
        var i := FoundIsTheOnlyOne(store.invoices, m.target, b);
        var k := FoundIsTheOnlyOne(store.invoices, m.donor, b);
        assert Mapped(store, m, b, store.invoices[i], store.invoices[k]);
      }
    }
  }

  /** A mapping can be planned exactly when it names a business, a target and a donor in it, and nothing is
      wrong with these. */
  lemma PlannableIff(store: Store, m: Mapping)
    ensures Plannable(store, m) <==>
            exists b: nat, t, d :: Mapped(store, m, b, t, d) && NoFault(Faults(store, b, t, d, {}))
  {
    RefusedWhenNotMapped(store, m, {});
    if b: nat, t, d :| Mapped(store, m, b, t, d) {
      RefusedForTheFirstFault(store, m, {}, b, t, d);
    }
    if b: nat, t, d :| Mapped(store, m, b, t, d) && NoFault(Faults(store, b, t, d, {})) {
      RefusedForTheFirstFault(store, m, {}, b, t, d);
    }
  }

  /** What each target holds after a run: line by line the donor's products and amounts, in the name of the
      business. */
  lemma TargetHoldsTheDonorsLines(store: Store, ms: seq<Mapping>, i: nat, b: nat, t: Invoice, d: Invoice)
    requires Repaired(store, ms).Ok? && i < |ms| && Mapped(store, ms[i], b, t, d)
    ensures var after := Repaired(store, ms).value;
            && t.id in after.lines && d.id in store.lines && |after.lines[t.id]| == |store.lines[d.id]|
            && forall k :: 0 <= k < |store.lines[d.id]| ==>
                 var l, copy := store.lines[d.id][k], after.lines[t.id][k];
                 && copy.business == Some(b) && copy.product == l.product
                 && copy.taxable == l.taxable && copy.total == l.total
                 && copy.cgst == l.cgst && copy.sgst == l.sgst && copy.igst == l.igst && copy.cess == l.cess
  {
    RefusedForTheFirstFault(store, ms[i], {}, b, t, d);
    SuccessCopiesTheDonor(store, ms, i, 0);
    MappedIsJudged(store, ms[i], {}, b, t, d);
    FindOnlyOne(store.invoices, ms[i].donor, b, d);
    NamedIff(store, ms[i], b);
    var p := PlanOf(store, ms[i]);
    assert LinesOf(Repaired(store, ms).value, t.id) == Copies(p.lines, b);
  }
}
