/** Repairing documents that lost their lines, by copying the lines of a verified donor. */
module LineRepair {
  import opened Wrappers
  import opened Overfill

  datatype Headers = Headers(subtotal: int, cgst: int, sgst: int, igst: int, cess: int, total: int,
                             discount: int, roundOff: int, cashDiscount: int)

  /** Document type, customer, buyer's tax number, place of supply, tax policy. */
  datatype Identity = Identity(kind: string, customer: Option<nat>, gstin: string, place: string, inclusive: bool)

  datatype Invoice = Invoice(id: nat, uid: string, business: nat, headers: Headers, identity: Identity)

  datatype Line = Line(business: Option<nat>, product: Option<nat>, taxable: int, cgst: int, sgst: int, igst: int,
                       cess: int, total: int)

  datatype Store = Store(invoices: seq<Invoice>, lines: map<nat, seq<Line>>,
                         businesses: map<string, seq<nat>>, products: map<nat, nat>)

  datatype Mapping = Mapping(bizId: string, target: string, donor: string, reason: string)

  datatype Plan = Plan(business: nat, target: nat, lines: seq<Line>)

  datatype Refusal =
    | NoMappings | BlankMapping | UnknownBusiness | UnknownInvoice | SameOrRepeated | HasLines | NoEvidence
    | HeadersDisagree | IdentitiesDisagree | UnverifiedLine | SumsDisagree | TotalDisagrees | GuardRefused

  function LinesOf(store: Store, id: nat): seq<Line> {
    if id in store.lines then store.lines[id] else []
  }

  predicate Blank(s: string) {
    forall i :: 0 <= i < |s| ==> s[i] in " \t\n\r"
  }

  /** The invoices with a uid in a business. */
  function Find(rows: seq<Invoice>, uid: string, business: nat): (r: seq<Invoice>)
    ensures forall inv :: inv in r ==> inv in rows && inv.uid == uid && inv.business == business
  {
    if rows == [] then []
    else (if rows[0].uid == uid && rows[0].business == business then [rows[0]] else []) + Find(rows[1..], uid, business)
  }

  function SumBy(lines: seq<Line>, f: Line -> int): int {
    if lines == [] then 0 else SumBy(lines[..|lines| - 1], f) + f(lines[|lines| - 1])
  }

  /** Within one paisa. */
  predicate Close(a: int, b: int) {
    -1 <= a - b <= 1
  }

  /** The lines add up to the header's amounts. */
  predicate LinesAddUp(lines: seq<Line>, h: Headers) {
    && Close(SumBy(lines, (l: Line) => l.taxable), h.subtotal)
    && Close(SumBy(lines, (l: Line) => l.cgst), h.cgst)
    && Close(SumBy(lines, (l: Line) => l.sgst), h.sgst)
    && Close(SumBy(lines, (l: Line) => l.igst), h.igst)
    && Close(SumBy(lines, (l: Line) => l.cess), h.cess)
  }

  function LineTotal(lines: seq<Line>): int {
    SumBy(lines, (l: Line) => l.total)
  }

  function Expected(h: Headers): int {
    h.total - h.roundOff + h.cashDiscount
  }

  /** What one mapping may do, or why it may not; `done` are the targets of the mappings before it. */
  function PlanOne(store: Store, m: Mapping, done: set<nat>): Result<Plan, Refusal> {
    if Blank(m.bizId) || Blank(m.target) || Blank(m.donor) || Blank(m.reason) then Err(BlankMapping)
    else if m.bizId !in store.businesses || |store.businesses[m.bizId]| != 1 then Err(UnknownBusiness)
    else
      var business := store.businesses[m.bizId][0];
      var targets, donors := Find(store.invoices, m.target, business), Find(store.invoices, m.donor, business);
      if |targets| != 1 || |donors| != 1 then Err(UnknownInvoice)
      else Judged(store, business, targets[0], donors[0], done)
  }

  /** Whether the donor's lines may be copied to the target. */
  function Judged(store: Store, business: nat, target: Invoice, donor: Invoice, done: set<nat>): Result<Plan, Refusal> {
    var lines := LinesOf(store, donor.id);
    if target.id == donor.id || target.id in done then Err(SameOrRepeated)
    else if LinesOf(store, target.id) != [] then Err(HasLines)
    else if lines == [] then Err(NoEvidence)
    else if target.headers != donor.headers then Err(HeadersDisagree)
    else if target.identity != donor.identity then Err(IdentitiesDisagree)
    else if exists i :: 0 <= i < |lines| && !Verified(store, business, lines[i]) then Err(UnverifiedLine)
    else if !LinesAddUp(lines, target.headers) then Err(SumsDisagree)
    else if !Close(LineTotal(lines), Expected(target.headers)) then Err(TotalDisagrees)
    else Ok(Plan(business, target.id, lines))
  }

  /** A line of the business itself, or of none, whose product is one of the business. */
  predicate Verified(store: Store, business: nat, l: Line) {
    && (l.business.Some? ==> l.business.value == business)
    && (l.product.Some? ==> l.product.value in store.products && store.products[l.product.value] == business)
  }

  function Targets(plans: seq<Plan>): set<nat> {
    set i | 0 <= i < |plans| :: plans[i].target
  }

  /** The plans of a list of mappings, or the first refusal. */
  function PlanAll(store: Store, ms: seq<Mapping>): Result<seq<Plan>, Refusal> {
    if ms == [] then Ok([])
    else
      var before := PlanAll(store, ms[..|ms| - 1]);
      if before.Err? then before
      else
        var plan := PlanOne(store, ms[|ms| - 1], Targets(before.value));
        if plan.Err? then Err(plan.error) else Ok(before.value + [plan.value])
  }

  function Copy(l: Line, business: nat): Line {
    l.(business := Some(business))
  }

  function Copies(lines: seq<Line>, business: nat): seq<Line> {
    seq(|lines|, i requires 0 <= i < |lines| => Copy(lines[i], business))
  }

  function Amounts(lines: seq<Line>): seq<int> {
    seq(|lines|, i requires 0 <= i < |lines| => lines[i].total)
  }

  /** What the guard lets a document take. */
  function TargetOf(store: Store, id: nat): Option<int> {
    var i := IndexOf(store.invoices, id);
    if i < |store.invoices| then Some(Expected(store.invoices[i].headers)) else None
  }

  function IndexOf(rows: seq<Invoice>, id: nat): (i: nat)
    ensures i <= |rows| && (i < |rows| ==> rows[i].id == id) && forall j :: 0 <= j < i ==> rows[j].id != id
  {
    if rows == [] || rows[0].id == id then 0 else 1 + IndexOf(rows[1..], id)
  }

  /** One more line on a document, unless the guard refuses it. */
  function AddLine(store: Store, id: nat, l: Line): Result<Store, Refusal> {
    var lines := LinesOf(store, id);
    if Accepts(Sqlite, TargetOf(store, id), Sum(Amounts(lines)), l.total)
    then Ok(store.(lines := store.lines[id := lines + [l]]))
    else Err(GuardRefused)
  }

  /** The lines of a plan, one after the other. */
  function AddLines(store: Store, plan: Plan, n: nat): Result<Store, Refusal>
    requires n <= |plan.lines|
  {
    if n == 0 then Ok(store)
    else
      var before := AddLines(store, plan, n - 1);
      if before.Err? then before else AddLine(before.value, plan.target, Copy(plan.lines[n - 1], plan.business))
  }

  function ApplyAll(store: Store, plans: seq<Plan>): Result<Store, Refusal> {
    if plans == [] then Ok(store)
    else
      var before, plan := ApplyAll(store, plans[..|plans| - 1]), plans[|plans| - 1];
      if before.Err? then before else AddLines(before.value, plan, |plan.lines|)
  }

  function Repaired(store: Store, ms: seq<Mapping>): Result<Store, Refusal> {
    if ms == [] then Err(NoMappings)
    else
      var plans := PlanAll(store, ms);
      if plans.Err? then Err(plans.error) else ApplyAll(store, plans.value)
  }

  lemma {:induction false} PrefixesPlan(store: Store, ms: seq<Mapping>, n: nat)
    requires n <= |ms| && PlanAll(store, ms[..n]).Err?
    ensures PlanAll(store, ms) == PlanAll(store, ms[..n])
    decreases |ms|
  {
    if n < |ms| {
      var front := ms[..|ms| - 1];
      assert front[..n] == ms[..n];
      PrefixesPlan(store, front, n);
    } else {
      assert ms[..n] == ms;
    }
  }

  lemma {:induction false} PrefixesApply(store: Store, plans: seq<Plan>, n: nat)
    requires n <= |plans| && ApplyAll(store, plans[..n]).Err?
    ensures ApplyAll(store, plans) == ApplyAll(store, plans[..n])
    decreases |plans|
  {
    if n < |plans| {
      var front := plans[..|plans| - 1];
      assert front[..n] == plans[..n];
      PrefixesApply(store, front, n);
    } else {
      assert plans[..n] == plans;
    }
  }

  lemma {:induction false} PrefixesAdd(store: Store, plan: Plan, n: nat, m: nat)
    requires n <= m <= |plan.lines| && AddLines(store, plan, n).Err?
    ensures AddLines(store, plan, m) == AddLines(store, plan, n)
  {
    if n < m {
      PrefixesAdd(store, plan, n, m - 1);
    }
  }

  lemma NextAdded(store: Store, plan: Plan, n: nat)
    requires n < |plan.lines| && AddLines(store, plan, n).Ok?
    ensures AddLines(store, plan, n + 1) ==
            AddLine(AddLines(store, plan, n).value, plan.target, Copy(plan.lines[n], plan.business))
  {
  }

  /** The database the tool works on. */
  class Ledger {
    const invoices: seq<Invoice>
    const businesses: map<string, seq<nat>>
    const products: map<nat, nat>
    var lines: map<nat, seq<Line>>

    function State(): Store
      reads this
    {
      Store(invoices, lines, businesses, products)
    }

    constructor (store: Store)
      ensures State() == store
    {
      invoices, businesses, products, lines := store.invoices, store.businesses, store.products, store.lines;
    }

    method PlanRepairs(ms: seq<Mapping>) returns (r: Result<seq<Plan>, Refusal>)
      ensures r == if ms == [] then Err(NoMappings) else PlanAll(State(), ms)
    {
      if ms == [] {
        return Err(NoMappings);
      }
      var plans: seq<Plan>, targets := [], {};
      for i := 0 to |ms|
        invariant PlanAll(State(), ms[..i]) == Ok(plans) && targets == Targets(plans)
      {
        assert ms[..i + 1][..i] == ms[..i];
        var plan := PlanOne(State(), ms[i], targets);
        if plan.Err? {
          PrefixesPlan(State(), ms, i + 1);
          return Err(plan.error);
        }
        var longer := plans + [plan.value];
        assert Targets(longer) == Targets(plans) + {plan.value.target} by {
          assert longer[|plans|] == plan.value && forall k :: 0 <= k < |plans| ==> longer[k] == plans[k];
        }
        plans, targets := longer, targets + {plan.value.target};
      }
      assert ms[..|ms|] == ms;
      return Ok(plans);
    }

    method AppendLine(id: nat, l: Line) returns (ok: bool)
      modifies this
      ensures match AddLine(old(State()), id, l)
              case Ok(after) => ok && State() == after
              case Err(_) => !ok && State() == old(State())
    {
      ok := Accepts(Sqlite, TargetOf(State(), id), Sum(Amounts(LinesOf(State(), id))), l.total);
      if ok {
        lines := lines[id := LinesOf(State(), id) + [l]];
      }
    }

    method AppendAll(plan: Plan) returns (ok: bool)
      modifies this
      ensures ok <==> AddLines(old(State()), plan, |plan.lines|).Ok?
      ensures ok ==> State() == AddLines(old(State()), plan, |plan.lines|).value
    {
      ghost var start := State();
      for i := 0 to |plan.lines|
        invariant AddLines(start, plan, i) == Ok(State())
      {
        NextAdded(start, plan, i);
        ok := AppendLine(plan.target, Copy(plan.lines[i], plan.business));
        if !ok {
          PrefixesAdd(start, plan, i + 1, |plan.lines|);
          return;
        }
      }
      return true;
    }

    method ApplyPlans(plans: seq<Plan>) returns (ok: bool)
      modifies this
      ensures match ApplyAll(old(State()), plans)
              case Ok(after) => ok && State() == after
              case Err(_) => !ok
    {
      ghost var start := State();
      for i := 0 to |plans|
        invariant ApplyAll(start, plans[..i]) == Ok(State())
      {
        assert plans[..i + 1][..i] == plans[..i];
        ok := AppendAll(plans[i]);
        if !ok {
          PrefixesApply(start, plans, i + 1);
          return;
        }
      }
      assert plans[..|plans|] == plans;
      return true;
    }

    /** All the repairs, or none; a dry run only plans them. */
    method Repair(ms: seq<Mapping>, apply: bool) returns (ok: bool)
      modifies this
      ensures !apply ==> State() == old(State()) && (ok <==> ms != [] && PlanAll(old(State()), ms).Ok?)
      ensures apply ==> match Repaired(old(State()), ms)
                        case Ok(after) => ok && State() == after
                        case Err(_) => !ok && State() == old(State())
    {
      var before := lines;
      var plans := PlanRepairs(ms);
      if plans.Err? {
        return false;
      }
      if !apply {
        return true;
      }
      ok := ApplyPlans(plans.value);
      if !ok {
        lines := before;
      }
    }
  }
}
