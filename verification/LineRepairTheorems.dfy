/** What a repair run leaves behind, and what it never does. */
module LineRepairTheorems {
  import opened Wrappers
  import opened Overfill
  import opened LineRepair

  // ---- one mapping on its own ----

  predicate Plannable(store: Store, m: Mapping) {
    PlanOne(store, m, {}).Ok?
  }

  function PlanOf(store: Store, m: Mapping): Plan
    requires Plannable(store, m)
  {
    PlanOne(store, m, {}).value
  }

  lemma EarlierTargetsOnlyExclude(store: Store, m: Mapping, done: set<nat>)
    ensures PlanOne(store, m, done).Ok? <==> Plannable(store, m) && PlanOf(store, m).target !in done
    ensures PlanOne(store, m, done).Ok? ==> PlanOne(store, m, done).value == PlanOf(store, m)
  {
  }

  ghost predicate DistinctTargets(store: Store, ms: seq<Mapping>)
    requires forall i :: 0 <= i < |ms| ==> Plannable(store, ms[i])
  {
    forall i, j :: 0 <= i < j < |ms| ==> PlanOf(store, ms[i]).target != PlanOf(store, ms[j]).target
  }

  ghost predicate Good(store: Store, ms: seq<Mapping>) {
    (forall i :: 0 <= i < |ms| ==> Plannable(store, ms[i])) && DistinctTargets(store, ms)
  }

  function PlansOf(store: Store, ms: seq<Mapping>): seq<Plan>
    requires forall i :: 0 <= i < |ms| ==> Plannable(store, ms[i])
  {
    seq(|ms|, i requires 0 <= i < |ms| => PlanOf(store, ms[i]))
  }

  lemma GoodSplits(store: Store, ms: seq<Mapping>, m: Mapping)
    ensures Good(store, ms + [m]) <==>
            Good(store, ms) && Plannable(store, m) && PlanOf(store, m).target !in Targets(PlansOf(store, ms))
    ensures Good(store, ms + [m]) ==> PlansOf(store, ms + [m]) == PlansOf(store, ms) + [PlanOf(store, m)]
  {
    var all, n := ms + [m], |ms|;
    assert all[n] == m && forall i :: 0 <= i < n ==> all[i] == ms[i];
    if Good(store, all) {
      assert Good(store, ms);
      forall i | 0 <= i < n
        ensures PlansOf(store, ms)[i].target != PlanOf(store, m).target
      {
        assert PlanOf(store, all[i]).target != PlanOf(store, all[n]).target;
      }
    }
    if Good(store, ms) && Plannable(store, m) && PlanOf(store, m).target !in Targets(PlansOf(store, ms)) {
      OneMoreGood(store, ms, m);
    }
  }

  lemma OneMoreGood(store: Store, ms: seq<Mapping>, m: Mapping)
    requires Good(store, ms) && Plannable(store, m) && PlanOf(store, m).target !in Targets(PlansOf(store, ms))
    ensures Good(store, ms + [m])
  {
    forall i | 0 <= i < |ms|
      ensures PlanOf(store, ms[i]).target != PlanOf(store, m).target
    {
      assert PlansOf(store, ms)[i].target in Targets(PlansOf(store, ms));
    }
  }

  /** A list of mappings is planned exactly when each of them can be on its own and no two share a
      target. */
  lemma {:induction false} PlanAllIff(store: Store, ms: seq<Mapping>)
    ensures PlanAll(store, ms).Ok? <==> Good(store, ms)
    ensures PlanAll(store, ms).Ok? ==> PlanAll(store, ms).value == PlansOf(store, ms)
  {
    if ms != [] {
      var front, m := ms[..|ms| - 1], ms[|ms| - 1];
      assert front + [m] == ms;
      PlanAllIff(store, front);
      GoodSplits(store, front, m);
      if PlanAll(store, front).Ok? {
        EarlierTargetsOnlyExclude(store, m, Targets(PlansOf(store, front)));
      }
    }
  }

  function DonorOf(store: Store, m: Mapping): nat
    requires Plannable(store, m)
  {
    Find(store.invoices, m.donor, store.businesses[m.bizId][0])[0].id
  }

  /** What a plan says about its target and its donor. */
  lemma PlanFacts(store: Store, m: Mapping)
    requires Plannable(store, m)
    ensures var p := PlanOf(store, m);
            && LinesOf(store, p.target) == [] && p.lines != [] && p.lines == LinesOf(store, DonorOf(store, m))
            && exists t :: t in store.invoices && t.id == p.target
                 && LinesAddUp(p.lines, t.headers) && Close(LineTotal(p.lines), Expected(t.headers))
  {
    var t := Find(store.invoices, m.target, store.businesses[m.bizId][0])[0];
    assert t in store.invoices && t.id == PlanOf(store, m).target;
  }

  /** No target is the donor of any mapping. */
  lemma TargetsAreNoDonors(store: Store, m: Mapping, other: Mapping)
    requires Plannable(store, m) && Plannable(store, other)
    ensures PlanOf(store, m).target != DonorOf(store, other)
  {
    PlanFacts(store, m);
    PlanFacts(store, other);
  }

  // ---- applying the plans ----

  /** The guard takes the lines of the plan. */
  predicate GuardTakes(store: Store, p: Plan) {
    InsertAll(Sqlite, TargetOf(store, p.target), [], Amounts(p.lines)) == Amounts(p.lines)
  }

  function Filled(store: Store, p: Plan): Store {
    store.(lines := store.lines[p.target := Copies(p.lines, p.business)])
  }

  /** The document while a plan is applied: its first `n` lines are there. */
  function PartFilled(store: Store, p: Plan, n: nat): Store
    requires n <= |p.lines|
  {
    if n == 0 then store else Filled(store, p.(lines := p.lines[..n]))
  }

  lemma PartFilledLines(store: Store, p: Plan, n: nat)
    requires LinesOf(store, p.target) == [] && n <= |p.lines|
    ensures LinesOf(PartFilled(store, p, n), p.target) == Copies(p.lines[..n], p.business)
    ensures Amounts(LinesOf(PartFilled(store, p, n), p.target)) == Amounts(p.lines)[..n]
    ensures TargetOf(PartFilled(store, p, n), p.target) == TargetOf(store, p.target)
  {
  }

  /** One more line of a plan. */
  lemma NextLine(store: Store, p: Plan, n: nat)
    requires LinesOf(store, p.target) == [] && n < |p.lines|
    ensures var added := AddLine(PartFilled(store, p, n), p.target, Copy(p.lines[n], p.business));
            && (added.Ok? <==> Accepts(Sqlite, TargetOf(store, p.target), Sum(Amounts(p.lines)[..n]), p.lines[n].total))
            && (added.Ok? ==> added.value == PartFilled(store, p, n + 1))
  {
    PartFilledLines(store, p, n);
    assert Copies(p.lines[..n + 1], p.business) == Copies(p.lines[..n], p.business) + [Copy(p.lines[n], p.business)];
  }

  lemma NextAmount(target: Option<int>, amounts: seq<int>, n: nat)
    requires n < |amounts|
    ensures InsertAll(Sqlite, target, [], amounts[..n + 1]) == amounts[..n + 1] <==>
            InsertAll(Sqlite, target, [], amounts[..n]) == amounts[..n] && Accepts(Sqlite, target, Sum(amounts[..n]), amounts[n])
  {
    assert amounts[..n + 1][..n] == amounts[..n];
    var taken, all := InsertAll(Sqlite, target, [], amounts[..n]), InsertAll(Sqlite, target, [], amounts[..n + 1]);
    NoMoreThanTried(Sqlite, target, [], amounts[..n]);
    if |all| == n + 1 {
      assert all == taken + [amounts[n]] && all[..n] == taken;
    }
  }

  lemma {:induction false} AddLinesIff(store: Store, p: Plan, n: nat)
    requires LinesOf(store, p.target) == [] && n <= |p.lines|
    ensures AddLines(store, p, n).Ok? <==>
            InsertAll(Sqlite, TargetOf(store, p.target), [], Amounts(p.lines)[..n]) == Amounts(p.lines)[..n]
    ensures AddLines(store, p, n).Ok? ==> AddLines(store, p, n).value == PartFilled(store, p, n)
  {
    if n > 0 {
      AddLinesIff(store, p, n - 1);
      NextLine(store, p, n - 1);
      NextAmount(TargetOf(store, p.target), Amounts(p.lines), n - 1);
    }
  }

  lemma AddAllIff(store: Store, p: Plan)
    requires LinesOf(store, p.target) == [] && p.lines != []
    ensures AddLines(store, p, |p.lines|).Ok? <==> GuardTakes(store, p)
    ensures AddLines(store, p, |p.lines|).Ok? ==> AddLines(store, p, |p.lines|).value == Filled(store, p)
  {
    AddLinesIff(store, p, |p.lines|);
    assert p.lines[..|p.lines|] == p.lines && Amounts(p.lines)[..|p.lines|] == Amounts(p.lines);
  }

  /** The store with every target filled with its donor's lines. */
  function FilledAll(store: Store, plans: seq<Plan>): Store {
    if plans == [] then store else Filled(FilledAll(store, plans[..|plans| - 1]), plans[|plans| - 1])
  }

  ghost predicate Fresh(store: Store, plans: seq<Plan>) {
    && (forall i :: 0 <= i < |plans| ==> LinesOf(store, plans[i].target) == [] && plans[i].lines != [])
    && forall i, j :: 0 <= i < j < |plans| ==> plans[i].target != plans[j].target
  }

  /** Each target has its copies; everything else is as it was. */
  lemma {:induction false} FilledLines(store: Store, plans: seq<Plan>, id: nat)
    requires Fresh(store, plans)
    ensures FilledAll(store, plans) == store.(lines := FilledAll(store, plans).lines)
    ensures forall i :: 0 <= i < |plans| && plans[i].target == id ==>
              LinesOf(FilledAll(store, plans), id) == Copies(plans[i].lines, plans[i].business)
    ensures (forall i :: 0 <= i < |plans| ==> plans[i].target != id) ==>
              LinesOf(FilledAll(store, plans), id) == LinesOf(store, id)
    ensures id in FilledAll(store, plans).lines <==> id in store.lines || exists i :: 0 <= i < |plans| && plans[i].target == id
  {
    if plans != [] {
      var n := |plans| - 1;
      FilledLines(store, plans[..n], id);
      assert forall i :: 0 <= i < n ==> plans[..n][i] == plans[i];
    }
  }

  lemma {:induction false} ApplyAllIff(store: Store, plans: seq<Plan>)
    requires Fresh(store, plans)
    ensures ApplyAll(store, plans).Ok? <==> forall i :: 0 <= i < |plans| ==> GuardTakes(store, plans[i])
    ensures ApplyAll(store, plans).Ok? ==> ApplyAll(store, plans).value == FilledAll(store, plans)
  {
    if plans != [] {
      var n := |plans| - 1;
      var p := plans[n];
      ApplyAllIff(store, plans[..n]);
      assert forall i :: 0 <= i < n ==> plans[..n][i] == plans[i];
      if ApplyAll(store, plans[..n]).Ok? {
        NextPlanIff(store, plans[..n], p);
      }
    }
  }

  lemma NextPlanIff(store: Store, plans: seq<Plan>, p: Plan)
    requires Fresh(store, plans) && LinesOf(store, p.target) == [] && p.lines != []
    requires forall i :: 0 <= i < |plans| ==> plans[i].target != p.target
    ensures var added := AddLines(FilledAll(store, plans), p, |p.lines|);
            && (added.Ok? <==> GuardTakes(store, p))
            && (added.Ok? ==> added.value == Filled(FilledAll(store, plans), p))
  {
    var before := FilledAll(store, plans);
    FilledLines(store, plans, p.target);
    AddAllIff(before, p);
    assert TargetOf(before, p.target) == TargetOf(store, p.target);
  }

  lemma GoodPlansAreFresh(store: Store, ms: seq<Mapping>)
    requires Good(store, ms)
    ensures Fresh(store, PlansOf(store, ms))
  {
    forall i | 0 <= i < |ms|
      ensures LinesOf(store, PlanOf(store, ms[i]).target) == [] && PlanOf(store, ms[i]).lines != []
    {
      PlanFacts(store, ms[i]);
    }
  }

  /** A run succeeds exactly when there is a mapping, each is sound on its own, no two share a
      target, and the guard takes every plan; and it leaves the filled store. */
  lemma RepairedIff(store: Store, ms: seq<Mapping>)
    ensures Repaired(store, ms).Ok? <==>
            ms != [] && Good(store, ms) && forall i :: 0 <= i < |ms| ==> GuardTakes(store, PlanOf(store, ms[i]))
    ensures Repaired(store, ms).Ok? ==> Repaired(store, ms).value == FilledAll(store, PlansOf(store, ms))
  {
    PlanAllIff(store, ms);
    if Good(store, ms) {
      GoodPlansAreFresh(store, ms);
      ApplyAllIff(store, PlansOf(store, ms));
      assert forall i :: 0 <= i < |ms| ==> PlansOf(store, ms)[i] == PlanOf(store, ms[i]);
    }
  }

  // ---- what a successful run leaves ----

  /** Each target has copies of its donor's lines, which reproduce its header; every document that
      is no target has just the lines it had, and no header changes. */
  lemma SuccessCopiesTheDonor(store: Store, ms: seq<Mapping>, i: nat, id: nat)
    requires Repaired(store, ms).Ok? && i < |ms|
    ensures Plannable(store, ms[i])
    ensures var after, p := Repaired(store, ms).value, PlanOf(store, ms[i]);
            && after == store.(lines := after.lines)
            && LinesOf(after, p.target) == Copies(LinesOf(store, DonorOf(store, ms[i])), p.business)
            && (exists t :: t in store.invoices && t.id == p.target && LinesAddUp(LinesOf(after, p.target), t.headers)
                  && Close(LineTotal(LinesOf(after, p.target)), Expected(t.headers)))
    ensures (forall j :: 0 <= j < |ms| ==> Plannable(store, ms[j]) && PlanOf(store, ms[j]).target != id) ==>
              LinesOf(Repaired(store, ms).value, id) == LinesOf(store, id)
  {
    RepairedIff(store, ms);
    GoodPlansAreFresh(store, ms);
    var plans, p := PlansOf(store, ms), PlanOf(store, ms[i]);
    assert plans[i] == p && forall j :: 0 <= j < |ms| ==> plans[j] == PlanOf(store, ms[j]);
    PlanFacts(store, ms[i]);
    FilledLines(store, plans, p.target);
    FilledLines(store, plans, id);
    CopiesAddUp(p.lines, p.business);
  }

  lemma {:induction false} SumsOfCopies(lines: seq<Line>, business: nat, f: Line -> int)
    requires forall l :: f(Copy(l, business)) == f(l)
    ensures SumBy(Copies(lines, business), f) == SumBy(lines, f)
  {
    if lines != [] {
      SumsOfCopies(lines[..|lines| - 1], business, f);
      assert Copies(lines, business)[..|lines| - 1] == Copies(lines[..|lines| - 1], business);
    }
  }

  lemma CopiesAddUp(lines: seq<Line>, business: nat)
    ensures forall h :: LinesAddUp(Copies(lines, business), h) <==> LinesAddUp(lines, h)
    ensures LineTotal(Copies(lines, business)) == LineTotal(lines)
  {
    SumsOfCopies(lines, business, (l: Line) => l.taxable);
    SumsOfCopies(lines, business, (l: Line) => l.cgst);
    SumsOfCopies(lines, business, (l: Line) => l.sgst);
    SumsOfCopies(lines, business, (l: Line) => l.igst);
    SumsOfCopies(lines, business, (l: Line) => l.cess);
    SumsOfCopies(lines, business, (l: Line) => l.total);
  }

  // ---- running it again ----

  /** Once a target has lines, no mapping onto it can be planned. */
  lemma FilledTargetsArePlannedNoMore(store: Store, after: Store, m: Mapping)
    requires Plannable(store, m) && after == store.(lines := after.lines) && LinesOf(after, PlanOf(store, m).target) != []
    ensures !Plannable(after, m)
  {
  }

  /** After a successful run every list that names one of its mappings again is refused. */
  lemma RepetitionIsRefused(store: Store, ms: seq<Mapping>, again: seq<Mapping>, i: nat)
    requires Repaired(store, ms).Ok? && i < |ms| && ms[i] in again
    ensures Repaired(Repaired(store, ms).value, again).Err?
  {
    var after := Repaired(store, ms).value;
    SuccessCopiesTheDonor(store, ms, i, 0);
    PlanFacts(store, ms[i]);
    FilledTargetsArePlannedNoMore(store, after, ms[i]);
    RepairedIff(after, again);
  }

  // ---- the guard ----

  predicate UniqueDocuments(rows: seq<Invoice>) {
    forall i, j :: 0 <= i < |rows| && 0 <= j < |rows| && rows[i].id == rows[j].id ==> rows[i] == rows[j]
  }

  lemma {:induction false} UnguardedTakesAll(target: Option<int>, lines: seq<int>, more: seq<int>)
    requires !Guarded(Sqlite, target)
    ensures InsertAll(Sqlite, target, lines, more) == lines + more
  {
    if more == [] {
      assert lines + more == lines;
    } else {
      UnguardedTakesAll(target, lines, more[..|more| - 1]);
    }
  }

  lemma {:induction false} TotalIsSum(lines: seq<Line>)
    ensures LineTotal(lines) == Sum(Amounts(lines))
  {
    if lines != [] {
      TotalIsSum(lines[..|lines| - 1]);
      assert Amounts(lines)[..|lines| - 1] == Amounts(lines[..|lines| - 1]);
    }
  }

  /** The guard takes a planned document unless its target is positive and some running total of its
      lines passes the bound. */
  lemma GuardTakesIff(store: Store, p: Plan)
    ensures GuardTakes(store, p) <==>
            (Guarded(Sqlite, TargetOf(store, p.target)) ==>
               StaysUnder(0, Amounts(p.lines), TargetOf(store, p.target).value + TOLERANCE))
  {
    var target, amounts := TargetOf(store, p.target), Amounts(p.lines);
    assert [] + amounts == amounts;
    if Guarded(Sqlite, target) {
      AllTakenIff(Sqlite, target, [], amounts);
    } else {
      UnguardedTakesAll(target, [], amounts);
    }
  }

  lemma TargetIsExpected(store: Store, t: Invoice)
    requires UniqueDocuments(store.invoices) && t in store.invoices
    ensures TargetOf(store, t.id) == Some(Expected(t.headers))
  {
    var k :| 0 <= k < |store.invoices| && store.invoices[k] == t;
    assert store.invoices[k].id == t.id;
  }

  /** With lines that are not negative the guard never stands in the way of a planned repair. */
  lemma GuardNeverBlocks(store: Store, ms: seq<Mapping>)
    requires UniqueDocuments(store.invoices) && ms != [] && PlanAll(store, ms).Ok?
    requires forall id, k :: id in store.lines && 0 <= k < |store.lines[id]| ==> store.lines[id][k].total >= 0
    ensures Repaired(store, ms).Ok?
  {
    PlanAllIff(store, ms);
    forall i | 0 <= i < |ms|
      ensures GuardTakes(store, PlanOf(store, ms[i]))
    {
      var p := PlanOf(store, ms[i]);
      PlanFacts(store, ms[i]);
      var t :| t in store.invoices && t.id == p.target && Close(LineTotal(p.lines), Expected(t.headers));
      TargetIsExpected(store, t);
      TotalIsSum(p.lines);
      forall n | 1 <= n <= |p.lines|
        ensures Sum(Amounts(p.lines)[..n]) <= Sum(Amounts(p.lines))
      {
        PrefixesOfNonNegative(Amounts(p.lines), n);
      }
      GuardTakesIff(store, p);
    }
    RepairedIff(store, ms);
  }

  // ---- the order of the mappings ----

  lemma TwiceIsCounted<T>(s: seq<T>, i: nat, j: nat)
    requires i < j < |s| && s[i] == s[j]
    ensures multiset(s)[s[i]] >= 2
  {
    assert s == (s[..j] + [s[j]]) + s[j + 1..];
    assert s[i] in s[..j];
    assert multiset(s) == multiset(s[..j]) + multiset{s[j]} + multiset(s[j + 1..]);
  }

  lemma CountedTwice<T>(s: seq<T>, x: T)
    requires multiset(s)[x] >= 2
    ensures exists i, j :: 0 <= i < j < |s| && s[i] == x && s[j] == x
  {
    assert x in multiset(s);
    var k :| 0 <= k < |s| && s[k] == x;
    assert s == (s[..k] + [s[k]]) + s[k + 1..];
    assert multiset(s) == multiset(s[..k]) + multiset{x} + multiset(s[k + 1..]);
    if x in s[..k] {
      var i :| 0 <= i < k && s[..k][i] == x;
      assert s[i] == x;
    } else {
      assert x in s[k + 1..];
      var i :| 0 <= i < |s[k + 1..]| && s[k + 1..][i] == x;
      assert s[k + 1 + i] == x;
    }
  }

  lemma GoodInAnyOrder(store: Store, ms: seq<Mapping>, ns: seq<Mapping>)
    requires multiset(ms) == multiset(ns) && Good(store, ms)
    ensures Good(store, ns)
  {
    forall i | 0 <= i < |ns|
      ensures Plannable(store, ns[i])
    {
      assert ns[i] in multiset(ns);
      assert ns[i] in ms;
    }
    forall i, j | 0 <= i < j < |ns|
      ensures PlanOf(store, ns[i]).target != PlanOf(store, ns[j]).target
    {
      assert ns[i] in multiset(ns) && ns[j] in multiset(ns);
      assert ns[i] in ms && ns[j] in ms;
      if ns[i] == ns[j] {
        TwiceIsCounted(ns, i, j);
        CountedTwice(ms, ns[i]);
      }
    }
  }

  lemma FilledInAnyOrder(store: Store, ms: seq<Mapping>, ns: seq<Mapping>, id: nat)
    requires multiset(ms) == multiset(ns) && Good(store, ms) && Good(store, ns)
    ensures var a, b := FilledAll(store, PlansOf(store, ms)), FilledAll(store, PlansOf(store, ns));
            (id in a.lines ==> id in b.lines) && LinesOf(a, id) == LinesOf(b, id)
  {
    GoodPlansAreFresh(store, ms);
    GoodPlansAreFresh(store, ns);
    var ps, qs := PlansOf(store, ms), PlansOf(store, ns);
    FilledLines(store, ps, id);
    FilledLines(store, qs, id);
    SameMembers(store, ms, ns);
    SameMembers(store, ns, ms);
    if i :| 0 <= i < |ps| && ps[i].target == id {
      assert ps[i] in qs;
      var k :| 0 <= k < |qs| && qs[k] == ps[i];
      assert qs[k].target == id;
    } else if k :| 0 <= k < |qs| && qs[k].target == id {
      assert qs[k] in ps;
    }
  }

  lemma SameMembers(store: Store, ms: seq<Mapping>, ns: seq<Mapping>)
    requires multiset(ms) == multiset(ns) && Good(store, ms) && Good(store, ns)
    ensures forall i :: 0 <= i < |ms| ==> PlansOf(store, ms)[i] in PlansOf(store, ns)
  {
    forall i | 0 <= i < |ms|
      ensures PlansOf(store, ms)[i] in PlansOf(store, ns)
    {
      assert ms[i] in multiset(ms);
      assert ms[i] in ns;
      var k :| 0 <= k < |ns| && ns[k] == ms[i];
      assert PlansOf(store, ns)[k] == PlanOf(store, ms[i]);
    }
  }

  /** Whatever the order of the mappings, the run succeeds or fails alike and leaves the same store. */
  lemma OrderIsIrrelevant(store: Store, ms: seq<Mapping>, ns: seq<Mapping>)
    requires multiset(ms) == multiset(ns) && Repaired(store, ms).Ok?
    ensures Repaired(store, ns) == Repaired(store, ms)
  {
    RepairedIff(store, ms);
    RepairedIff(store, ns);
    GoodInAnyOrder(store, ms, ns);
    assert |multiset(ms)| == |ms| && |multiset(ns)| == |ns|;
    forall i | 0 <= i < |ns|
      ensures GuardTakes(store, PlanOf(store, ns[i]))
    {
      assert ns[i] in multiset(ns);
      assert ns[i] in ms;
    }
    var a, b := FilledAll(store, PlansOf(store, ms)), FilledAll(store, PlansOf(store, ns));
    forall id
      ensures (id in a.lines <==> id in b.lines) && LinesOf(a, id) == LinesOf(b, id)
    {
      FilledInAnyOrder(store, ms, ns, id);
      FilledInAnyOrder(store, ns, ms, id);
    }
    GoodPlansAreFresh(store, ms);
    GoodPlansAreFresh(store, ns);
    FilledLines(store, PlansOf(store, ms), 0);
    FilledLines(store, PlansOf(store, ns), 0);
    SameLines(a, b);
  }

  lemma SameLines(a: Store, b: Store)
    requires b == a.(lines := b.lines)
    requires forall id :: (id in a.lines <==> id in b.lines) && LinesOf(a, id) == LinesOf(b, id)
    ensures a == b
  {
    forall id | id in a.lines
      ensures a.lines[id] == b.lines[id]
    {
      assert LinesOf(a, id) == LinesOf(b, id);
    }
    assert a.lines == b.lines;
  }
}
