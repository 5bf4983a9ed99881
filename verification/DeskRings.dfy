/** Circular waits of any length, of any number of payers and of planners that pick their bills once: exactly
    when they can come about. */
module DeskRings {
  import opened Wrappers
  import opened CollectionModel
  import opened CollectionRuns
  import opened CollectionSafety
  import opened CollectionTheorems
  import opened Planning
  import opened LockOrder
  import opened PlanningLocks
  import opened PayerLocks
  import opened OrderlyDesks
  import opened CrossedLocks
  import opened ApprovalLocks
  import S = StopLocks

  predicate PlannerActs(a: Act) {
    a.Begin? || a.Resolve? || a.Lock? || a.Plan? || a.Reopen? || a.Finish? || a.GiveUp?
  }

  /** A step of one of the payers, of staff, or of a planner that picks its bills once. */
  ghost predicate Allowed(zs: seq<Payer>, d: Desk, a: Act) {
    || (exists i :: 0 <= i < |zs| && StepOf(zs[i], a))
    || a.Complete? || a.Cancel?
    || (PlannerActs(a) && (a.Resolve? && a.p in d.planners ==> d.planners[a.p].holds == {}))
  }

  ghost predicate AllowedRun(zs: seq<Payer>, d: Desk, run: seq<Act>)
    requires Feasible(d, run)
    decreases |run|
  {
    run == [] || (AllowedRun(zs, d, run[..|run| - 1]) && Allowed(zs, Ended(d, run[..|run| - 1]), run[|run| - 1]))
  }

  /** Some such run leads there. */
  ghost predicate Reached(zs: seq<Payer>, d: Desk, e: Desk) {
    exists run :: Feasible(d, run) && AllowedRun(zs, d, run) && Ended(d, run) == e
  }

  /** Somebody can end up waiting in a circle, of whatever length. */
  ghost predicate CanRing(zs: seq<Payer>, d: Desk) {
    exists e, cycle :: Reached(zs, d, e) && WaitCycle(DeskLocks(e), cycle)
  }

  predicate Ascends(bills: seq<int>) {
    forall i, j :: 0 <= i < j < |bills| ==> bills[i] < bills[j]
  }

  /** Every split is in ascending order, and whatever a payer locks after its first bill is above the first
      bill of every payer. */
  ghost predicate Separated(zs: seq<Payer>)
    requires forall i :: 0 <= i < |zs| ==> Sensible(zs[i])
  {
    && (forall x :: 0 <= x < |zs| ==> Ascends(Order(zs[x])))
    && forall x, y, i :: 0 <= x < |zs| && 0 <= y < |zs| && 0 < i < |Order(zs[x])| && Order(zs[y]) != [] ==>
                           Order(zs[y])[0] < Order(zs[x])[i]
  }

  // ---- separated payers ----

  lemma {:induction false} GreatestFirst(orders: seq<seq<int>>) returns (t: int)
    ensures forall i :: 0 <= i < |orders| && orders[i] != [] ==> orders[i][0] <= t
    ensures (forall i :: 0 <= i < |orders| ==> orders[i] == [])
            || exists i :: 0 <= i < |orders| && orders[i] != [] && orders[i][0] == t
  {
    t := 0;
    if orders != [] {
      var n := |orders| - 1;
      var front := orders[..n];
      t := GreatestFirst(front);
      assert forall i :: 0 <= i < n ==> front[i] == orders[i];
      if orders[n] != [] && ((forall i :: 0 <= i < n ==> orders[i] == []) || orders[n][0] > t) {
        t := orders[n][0];
      } else if i :| 0 <= i < n && orders[i] != [] {
        var k :| 0 <= k < n && front[k] != [] && front[k][0] == t;
        assert orders[k] != [] && orders[k][0] == t;
      }
    }
  }

  lemma SeparatedAreAround(zs: seq<Payer>) returns (t: int)
    requires forall i :: 0 <= i < |zs| ==> Sensible(zs[i])
    requires Separated(zs)
    ensures forall i :: 0 <= i < |zs| ==> Around(t, Order(zs[i]))
  {
    var orders := seq(|zs|, i requires 0 <= i < |zs| => Order(zs[i]));
    t := GreatestFirst(orders);
    forall i | 0 <= i < |zs|
      ensures Around(t, Order(zs[i]))
    {
      assert orders[i] == Order(zs[i]) && Ascends(Order(zs[i]));
      if Order(zs[i]) != [] {
        var k :| 0 <= k < |orders| && orders[k] != [] && orders[k][0] == t;
        assert Order(zs[k])[0] == t;
      }
    }
  }

  lemma AllowedIsOrderly(zs: seq<Payer>, d: Desk, a: Act, t: int)
    requires forall i :: 0 <= i < |zs| ==> Sensible(zs[i])
    requires forall i :: 0 <= i < |zs| ==> Around(t, Order(zs[i]))
    requires Can(d, a) && Allowed(zs, d, a)
    ensures Orderly(t, d, a)
  {
    if i :| 0 <= i < |zs| && StepOf(zs[i], a) {
      StepsAreOrderly(zs[i], d, a, t);
    }
  }

  lemma StepsAreOrderly(z: Payer, d: Desk, a: Act, t: int)
    requires Sensible(z) && Around(t, Order(z)) && StepOf(z, a)
    ensures Orderly(t, d, a)
  {
  }

  lemma {:induction false} AllowedRunsAreOrderly(zs: seq<Payer>, d: Desk, run: seq<Act>, t: int)
    requires forall i :: 0 <= i < |zs| ==> Sensible(zs[i])
    requires forall i :: 0 <= i < |zs| ==> Around(t, Order(zs[i]))
    requires Feasible(d, run) && AllowedRun(zs, d, run)
    ensures OrderlyRun(t, d, run)
    decreases |run|
  {
    if run != [] {
      var front := run[..|run| - 1];
      AllowedRunsAreOrderly(zs, d, front, t);
      AllowedIsOrderly(zs, Ended(d, front), run[|run| - 1], t);
    }
  }

  lemma SeparatedNeverRing(zs: seq<Payer>, d: Desk)
    requires DeskOk(d) && Quiet(d)
    requires forall i :: 0 <= i < |zs| ==> Sensible(zs[i])
    requires Separated(zs)
    ensures !CanRing(zs, d)
  {
    var t := SeparatedAreAround(zs);
    forall e, cycle | Reached(zs, d, e)
      ensures !WaitCycle(DeskLocks(e), cycle)
    {
      var run :| Feasible(d, run) && AllowedRun(zs, d, run) && Ended(d, run) == e;
      AllowedRunsAreOrderly(zs, d, run, t);
      OrderlyDesksNeverDeadlock(t, d, run, cycle);
    }
  }

  // ---- runs of payers and a planner ----

  lemma ReachedOneMore(zs: seq<Payer>, d: Desk, e: Desk, a: Act)
    requires Reached(zs, d, e) && Can(e, a) && Allowed(zs, e, a)
    ensures Reached(zs, d, Next(e, a))
  {
    var run :| Feasible(d, run) && AllowedRun(zs, d, run) && Ended(d, run) == e;
    assert (run + [a])[..|run|] == run;
    assert Feasible(d, run + [a]) && AllowedRun(zs, d, run + [a]) && Ended(d, run + [a]) == Next(e, a);
  }

  lemma {:induction false} PayersAreAllowed(zs: seq<Payer>, d: Desk, run: seq<Act>, x: nat, y: nat)
    requires Feasible(d, run) && x < |zs| && y < |zs| && OnlyThem(run, zs[x], zs[y])
    ensures AllowedRun(zs, d, run)
    decreases |run|
  {
    if run != [] {
      var front := run[..|run| - 1];
      assert forall i :: 0 <= i < |front| ==> front[i] == run[i];
      PayersAreAllowed(zs, d, front, x, y);
      assert StepOf(zs[x], run[|run| - 1]) || StepOf(zs[y], run[|run| - 1]);
    }
  }

  lemma PayersReach(zs: seq<Payer>, d: Desk, e: Desk, x: nat, y: nat)
    requires x < |zs| && y < |zs| && ReachedBy(d, e, zs[x], zs[y])
    ensures Reached(zs, d, e)
  {
    var run :| Feasible(d, run) && Ended(d, run) == e && OnlyThem(run, zs[x], zs[y]);
    PayersAreAllowed(zs, d, run, x, y);
  }

  /** A planner that has locked `r` and asks for `f`. */
  function Asking(e: Desk, r: nat, f: nat): Desk {
    S.With(e, 0, Planner([f], {r}, map[]))
  }

  lemma PlannerStep(zs: seq<Payer>, d: Desk, e: Desk, a: Act, e': Desk)
    requires Reached(zs, d, e) && Can(e, a) && PlannerActs(a) && Next(e, a) == e'
    requires a.Resolve? && a.p in e.planners ==> e.planners[a.p].holds == {}
    ensures Reached(zs, d, e')
  {
    ReachedOneMore(zs, d, e, a);
  }

  lemma BeginStep(e: Desk)
    requires e.planners == map[]
    ensures Can(e, Begin(0)) && Next(e, Begin(0)) == S.With(e, 0, Planner([], {}, map[]))
  {
  }

  lemma PickStep(e: Desk, r: nat, f: nat)
    requires r < f
    ensures var e' := S.With(e, 0, Planner([], {}, map[]));
            Can(e', Resolve(0, [r, f])) && Next(e', Resolve(0, [r, f])) == S.With(e, 0, Planner([r, f], {}, map[]))
  {
  }

  lemma TakeStep(e: Desk, r: nat, f: nat)
    requires e.planners == map[] && r in e.money.books.bills && S.NobodyHas(e, r)
    ensures var e' := S.With(e, 0, Planner([r, f], {}, map[])); Can(e', Lock(0)) && Next(e', Lock(0)) == Asking(e, r, f)
  {
    assert [r, f][1..] == [f] && {} + {r} == {r};
  }

  lemma PlannerLocks(zs: seq<Payer>, d: Desk, e: Desk, r: nat, f: nat)
    requires Reached(zs, d, e) && e.planners == map[] && r < f && r in e.money.books.bills && S.NobodyHas(e, r)
    ensures Reached(zs, d, Asking(e, r, f))
  {
    var e1, e2 := S.With(e, 0, Planner([], {}, map[])), S.With(e, 0, Planner([r, f], {}, map[]));
    BeginStep(e);
    PlannerStep(zs, d, e, Begin(0), e1);
    PickStep(e, r, f);
    PlannerStep(zs, d, e1, Resolve(0, [r, f]), e2);
    TakeStep(e, r, f);
    PlannerStep(zs, d, e2, Lock(0), Asking(e, r, f));
  }

  lemma NobodyHasIt(f: Desk, bill: nat)
    requires f.planners == map[] && GripsOk(f) && forall y :: !Holder(f, y, bill)
    ensures S.NobodyHas(f, bill)
  {
    forall u | u in f.money.open
      ensures !Holds(f.money.open[u], bill)
    {
      assert Holds(f.money.open[u], bill) ==> Holder(f, TheApproval(u), bill);
    }
    forall u | u in f.grips && f.money.open[u].wanted != []
      ensures f.money.open[u].wanted[0].bill != bill
    {
      assert Gripping(f, u);
      assert f.money.open[u].wanted[0].bill == bill ==> Holder(f, TheApproval(u), bill);
    }
    forall t | t in f.tills
      ensures f.tills[t].bill != bill
    {
      assert f.tills[t].bill == bill ==> Holder(f, TheTill(t), bill);
    }
  }

  // ---- who waits for whom ----

  lemma WaitsForThePlanner(e: Desk, x: Payer, k: nat, r: nat, f: nat)
    requires FlightsOk(e.money) && StandsAt(e, x, k) && k < |Locks(x)| && Locks(x)[k] == r
    ensures WaitsFor(DeskLocks(Asking(e, r, f)), PartyOf(x), ThePlanner(0))
  {
    var e' := Asking(e, r, f);
    assert StandsAt(e', x, k);
    StandingAsks(e', x, k);
    assert PartyOf(x) in Parties(e') && ThePlanner(0) in Parties(e');
    assert e'.planners[0].holds == {r};
  }

  lemma ThePlannerWaits(e: Desk, x: Payer, k: nat, r: nat, f: nat)
    requires FlightsOk(e.money) && StandsAt(e, x, k) && k <= |Locks(x)| && f in Locks(x)[..k]
    ensures WaitsFor(DeskLocks(Asking(e, r, f)), ThePlanner(0), PartyOf(x))
  {
    var e' := Asking(e, r, f);
    assert StandsAt(e', x, k);
    PayerHolds(e', PartyOf(x), f);
    assert PartyOf(x) in Parties(e') && ThePlanner(0) in Parties(e');
  }

  lemma PairRings(w: Waiting<Party>, a: Party, b: Party)
    requires WaitsFor(w, a, b) && WaitsFor(w, b, a)
    ensures WaitCycle(w, [a, b])
  {
  }

  lemma ThreeRing(w: Waiting<Party>, a: Party, b: Party, c: Party)
    requires WaitsFor(w, a, b) && WaitsFor(w, b, c) && WaitsFor(w, c, a)
    ensures WaitCycle(w, [a, b, c])
  {
  }

  // ---- payers that are not separated ----

  /** What is asked of the payers. */
  ghost predicate Payers(zs: seq<Payer>, d: Desk) {
    && (forall i :: 0 <= i < |zs| ==> Sensible(zs[i]) && GoesThrough(d.money, zs[i]))
    && forall i, j :: 0 <= i < j < |zs| ==> PartyOf(zs[i]) != PartyOf(zs[j])
  }

  lemma OneReach(zs: seq<Payer>, d: Desk, x: nat, k: nat)
    requires DeskOk(d) && Quiet(d) && Payers(zs, d) && x < |zs| && 0 < k < |Locks(zs[x])|
    ensures var f := At(d, zs[x], k);
            Reached(zs, d, f) && f.planners == map[] && FlightsOk(f.money) && GripsOk(f) && StandsAt(f, zs[x], k)
  {
    var z := zs[x];
    assert Feasible(d, []) && Ended(d, []) == d && OnlyThem([], z, z);
    QuietIsClear(d, z, k);
    TakesItsFirstLocks(d, d, z, z, z, k);
    ReachedIsOk(d, At(d, z, k), z, z);
    OneStands(d, z, k);
    PayersReach(zs, d, At(d, z, k), x, x);
  }

  lemma LocksOf(bills: seq<int>, i: nat, lock: int)
    requires Distinct(bills) && CLOCK !in bills && 0 < i < |bills|
    ensures |LockList(bills)| == |bills| + 1 && LockList(bills)[i + 1] == bills[i]
    ensures bills[i] !in LockList(bills)[..i + 1]
    ensures lock == CLOCK || lock in bills[..i] ==> lock in LockList(bills)[..i + 1]
  {
    ListedLocks(bills, i, bills[i]);
    ListedLocks(bills, i, lock);
    assert bills[i] in bills;
  }

  lemma SplitsAreBills(s: System, z: Payer)
    requires LedgerOk(s.books) && Sensible(z) && GoesThrough(s, z)
    ensures Distinct(Order(z)) && CLOCK !in Order(z) && Order(z) != []
    ensures forall i :: 0 <= i < |Order(z)| ==> Order(z)[i] >= 0 && Order(z)[i] in s.books.bills
    ensures |Order(z)| > 1 ==> z.ByApproval?
  {
    if z.ByApproval? {
      SplitsAreDistinct(s.books, z.split);
      forall i | 0 <= i < |Order(z)|
        ensures Order(z)[i] >= 0 && Order(z)[i] in s.books.bills
      {
        PaymentsOfAGoodSplit(s.books, z.split, i);
      }
    }
  }

  lemma PayerAndPlannerRing(zs: seq<Payer>, d: Desk, e: Desk, x: Payer, k: nat, r: nat, f: nat)
    requires Reached(zs, d, Asking(e, r, f)) && FlightsOk(e.money) && StandsAt(e, x, k)
    requires k < |Locks(x)| && Locks(x)[k] == r && f in Locks(x)[..k]
    ensures CanRing(zs, d)
  {
    WaitsForThePlanner(e, x, k, r, f);
    ThePlannerWaits(e, x, k, r, f);
    PairRings(DeskLocks(Asking(e, r, f)), PartyOf(x), ThePlanner(0));
  }

  lemma PlannerRings(zs: seq<Payer>, d: Desk, x: nat, k: nat, r: nat, f: nat)
    requires DeskOk(d) && Quiet(d) && Payers(zs, d) && x < |zs| && 0 < k < |Locks(zs[x])|
    requires r < f && r in d.money.books.bills && Locks(zs[x])[k] == r && r !in Locks(zs[x])[..k] && f in Locks(zs[x])[..k]
    ensures CanRing(zs, d)
  {
    var e := At(d, zs[x], k);
    OneReach(zs, d, x, k);
    OnlyOneHolds(d, zs[x], k, r);
    NobodyHasIt(e, r);
    PlannerLocks(zs, d, e, r, f);
    PayerAndPlannerRing(zs, d, e, zs[x], k, r, f);
  }

  lemma DescendingLocks(s: System, z: Payer, a: nat, b: nat)
    requires LedgerOk(s.books) && Sensible(z) && GoesThrough(s, z) && a < b < |Order(z)|
    ensures b + 1 < |Locks(z)| && Locks(z)[b + 1] == Order(z)[b] && Order(z)[b] !in Locks(z)[..b + 1]
    ensures Order(z)[a] in Locks(z)[..b + 1] && Order(z)[b] >= 0 && Order(z)[b] in s.books.bills
  {
    SplitsAreBills(s, z);
    assert Order(z)[..b][a] == Order(z)[a];
    LocksOf(Order(z), b, Order(z)[a]);
  }

  /** A split that names `f` before `r`, the lower: a planner that has locked `r` asks for `f`. */
  lemma DescendingRings(zs: seq<Payer>, d: Desk, x: nat, a: nat, b: nat)
    requires DeskOk(d) && Quiet(d) && Payers(zs, d) && x < |zs|
    requires a < b < |Order(zs[x])| && Order(zs[x])[b] < Order(zs[x])[a]
    ensures CanRing(zs, d)
  {
    DescendingLocks(d.money, zs[x], a, b);
    LowerLockRings(zs, d, x, b + 1, Order(zs[x])[b], Order(zs[x])[a]);
  }

  lemma LowerLockRings(zs: seq<Payer>, d: Desk, x: nat, k: nat, r: int, f: int)
    requires DeskOk(d) && Quiet(d) && Payers(zs, d) && x < |zs| && 0 < k < |Locks(zs[x])|
    requires 0 <= r < f && r in d.money.books.bills
    requires Locks(zs[x])[k] == r && r !in Locks(zs[x])[..k] && f in Locks(zs[x])[..k]
    ensures CanRing(zs, d)
  {
    PlannerRings(zs, d, x, k, r, f);
  }

  lemma OnlyOneParty(d: Desk, x: Payer, k: nat, z: Party)
    requires Quiet(d) && Sensible(x) && k <= |Locks(x)|
    ensures IsParty(At(d, x, k), z) ==> z == PartyOf(x)
  {
  }

  lemma OnlyOneHolds(d: Desk, x: Payer, k: nat, bill: int)
    requires Quiet(d) && Sensible(x) && 0 < k < |Locks(x)| && bill !in Locks(x)[..k]
    requires FlightsOk(At(d, x, k).money) && StandsAt(At(d, x, k), x, k)
    ensures forall y :: !Holder(At(d, x, k), y, bill)
  {
    TheyHoldTheirs(At(d, x, k), x, k, bill);
    forall z
      ensures !Holder(At(d, x, k), z, bill)
    {
      OnlyOneParty(d, x, k, z);
    }
  }

  lemma OnlyTwoParties(d: Desk, x: Payer, i: nat, y: Payer, j: nat, z: Party)
    requires Quiet(d) && Sensible(x) && Sensible(y) && i <= |Locks(x)| && j <= |Locks(y)|
    ensures IsParty(At(At(d, x, i), y, j), z) ==> z == PartyOf(x) || z == PartyOf(y)
  {
  }

  lemma OnlyTwoHold(d: Desk, x: Payer, i: nat, y: Payer, j: nat, bill: int)
    requires Quiet(d) && Sensible(x) && Sensible(y) && PartyOf(x) != PartyOf(y) && 0 < i < |Locks(x)| && 0 < j < |Locks(y)|
    requires bill !in Locks(x)[..i] && bill !in Locks(y)[..j]
    requires FlightsOk(At(At(d, x, i), y, j).money)
    ensures forall z :: !Holder(At(At(d, x, i), y, j), z, bill)
  {
    var f := At(At(d, x, i), y, j);
    BothStand(d, x, y, i, j);
    TheyHoldTheirs(f, x, i, bill);
    TheyHoldTheirs(f, y, j, bill);
    forall z
      ensures !Holder(f, z, bill)
    {
      OnlyTwoParties(d, x, i, y, j, z);
    }
  }

  lemma TheyHoldTheirs(f: Desk, x: Payer, k: nat, bill: int)
    requires FlightsOk(f.money) && StandsAt(f, x, k) && k <= |Locks(x)| && bill !in Locks(x)[..k]
    ensures !Holder(f, PartyOf(x), bill)
  {
    PayerHolds(f, PartyOf(x), bill);
  }

  lemma TwoReach(zs: seq<Payer>, d: Desk, x: nat, i: nat, y: nat, j: nat)
    requires DeskOk(d) && Quiet(d) && Payers(zs, d) && x < |zs| && y < |zs| && x != y
    requires Beside(Locks(zs[x]), Locks(zs[y]), i, j)
    ensures var f := At(At(d, zs[x], i), zs[y], j);
            Reached(zs, d, f) && f.planners == map[] && FlightsOk(f.money) && GripsOk(f)
            && StandsAt(f, zs[x], i) && StandsAt(f, zs[y], j)
  {
    BothTakeTheirLocks(d, zs[x], i, zs[y], j);
    BothStand(d, zs[x], zs[y], i, j);
    ReachedIsOk(d, At(At(d, zs[x], i), zs[y], j), zs[x], zs[y]);
    PayersReach(zs, d, At(At(d, zs[x], i), zs[y], j), x, y);
  }

  /** A payer that has its first bill `f`, and one that has the clock and asks for `r`, the lower: a planner
      that has locked `r` asks for `f`. */
  lemma LowRestRings(zs: seq<Payer>, d: Desk, x: nat, i: nat, y: nat)
    requires DeskOk(d) && Quiet(d) && Payers(zs, d) && x < |zs| && y < |zs| && x != y && Ascends(Order(zs[x]))
    requires 0 < i < |Order(zs[x])| && Order(zs[y]) != [] && Order(zs[x])[i] < Order(zs[y])[0]
    ensures CanRing(zs, d)
  {
    SplitsAreBills(d.money, zs[x]);
    SplitsAreBills(d.money, zs[y]);
    LocksOf(Order(zs[x]), i, CLOCK);
    var r: nat, f: nat := Order(zs[x])[i], Order(zs[y])[0];
    LowIsBeside(Order(zs[x]), i, Order(zs[y]));
    TwoReach(zs, d, x, i + 1, y, 1);
    var e := At(At(d, zs[x], i + 1), zs[y], 1);
    OnlyTwoHold(d, zs[x], i + 1, zs[y], 1, r);
    NobodyHasIt(e, r);
    PlannerLocks(zs, d, e, r, f);
    LowRestWaits(zs, d, e, zs[x], i + 1, zs[y], r, f);
  }

  lemma LowIsBeside(bills: seq<int>, i: nat, others: seq<int>)
    requires Ascends(bills) && CLOCK !in bills && CLOCK !in others
    requires 0 < i < |bills| && others != [] && bills[i] < others[0]
    ensures Beside(LockList(bills), LockList(others), i + 1, 1) && others[0] in LockList(others)[..1]
    ensures bills[i] !in LockList(others)[..1]
  {
    var p, q := LockList(bills)[..i + 1], LockList(others)[..1];
    assert q == [others[0]] && others[0] in others;
    forall a, b | 0 <= a < |p| && 0 <= b < |q|
      ensures p[a] != q[b]
    {
      assert a > 1 ==> p[a] == bills[a - 1];
    }
  }

  lemma StandsStill(e: Desk, x: Payer, k: nat, r: nat, f: nat)
    requires StandsAt(e, x, k)
    ensures StandsAt(Asking(e, r, f), x, k)
  {
  }

  lemma WaitsForTheClock(e: Desk, x: Payer, k: nat, y: Payer)
    requires FlightsOk(e.money) && PartyOf(x) != PartyOf(y) && StandsAt(e, x, k) && StandsAt(e, y, 1)
    requires Order(y) != [] && k <= |Locks(x)| && CLOCK in Locks(x)[..k]
    ensures WaitsFor(DeskLocks(e), PartyOf(y), PartyOf(x))
  {
    assert Locks(y)[1] == CLOCK;
    OneWaitsForTheOther(e, y, 1, x, k);
  }

  lemma LowRestWaits(zs: seq<Payer>, d: Desk, e: Desk, x: Payer, k: nat, y: Payer, r: nat, f: nat)
    requires Reached(zs, d, Asking(e, r, f)) && FlightsOk(e.money) && PartyOf(x) != PartyOf(y)
    requires StandsAt(e, x, k) && StandsAt(e, y, 1) && k < |Locks(x)| && Locks(x)[k] == r && CLOCK in Locks(x)[..k]
    requires Order(y) != [] && f in Locks(y)[..1]
    ensures CanRing(zs, d)
  {
    WaitsForThePlanner(e, x, k, r, f);
    ThePlannerWaits(e, y, 1, r, f);
    StandsStill(e, x, k, r, f);
    StandsStill(e, y, 1, r, f);
    WaitsForTheClock(Asking(e, r, f), x, k, y);
    ThreeRing(DeskLocks(Asking(e, r, f)), PartyOf(x), ThePlanner(0), PartyOf(y));
  }

  lemma PairsRing(zs: seq<Payer>, d: Desk, x: nat, y: nat)
    requires x < |zs| && y < |zs| && CanDeadlock(d, zs[x], zs[y])
    ensures CanRing(zs, d)
  {
    var e :| ReachedBy(d, e, zs[x], zs[y]) && WaitCycle(DeskLocks(e), [PartyOf(zs[x]), PartyOf(zs[y])]);
    PayersReach(zs, d, e, x, y);
  }

  /** The first bill of one payer is a later one of another. */
  lemma SharedRestRings(zs: seq<Payer>, d: Desk, x: nat, i: nat, y: nat)
    requires DeskOk(d) && Quiet(d) && Payers(zs, d) && x < |zs| && y < |zs| && x != y
    requires 0 < i < |Order(zs[x])| && Order(zs[y]) != [] && Order(zs[x])[i] == Order(zs[y])[0]
    ensures CanRing(zs, d)
  {
    SplitsAreBills(d.money, zs[x]);
    assert Order(zs[y])[0] in Order(zs[x]);
    PayersDeadlockIff(d, zs[x], zs[y]);
    PairsRing(zs, d, x, y);
  }

  lemma UnseparatedRing(zs: seq<Payer>, d: Desk)
    requires DeskOk(d) && Quiet(d) && Payers(zs, d) && !Separated(zs)
    ensures CanRing(zs, d)
  {
    if x: nat :| x < |zs| && !Ascends(Order(zs[x])) {
      DescentRings(zs, d, x);
    } else {
      var x, y, i := LowRest(zs);
      AnyLowRestRings(zs, d, x, i, y);
    }
  }

  lemma DescentRings(zs: seq<Payer>, d: Desk, x: nat)
    requires DeskOk(d) && Quiet(d) && Payers(zs, d) && x < |zs| && !Ascends(Order(zs[x]))
    ensures CanRing(zs, d)
  {
    SplitsAreBills(d.money, zs[x]);
    var a: nat, b: nat :| a < b < |Order(zs[x])| && Order(zs[x])[b] <= Order(zs[x])[a];
    DescendingRings(zs, d, x, a, b);
  }

  lemma AnyLowRestRings(zs: seq<Payer>, d: Desk, x: nat, i: nat, y: nat)
    requires DeskOk(d) && Quiet(d) && Payers(zs, d) && x < |zs| && y < |zs| && x != y && Ascends(Order(zs[x]))
    requires 0 < i < |Order(zs[x])| && Order(zs[y]) != [] && Order(zs[x])[i] <= Order(zs[y])[0]
    ensures CanRing(zs, d)
  {
    if Order(zs[x])[i] == Order(zs[y])[0] {
      SharedRestRings(zs, d, x, i, y);
    } else {
      LowRestRings(zs, d, x, i, y);
    }
  }

  lemma LowRest(zs: seq<Payer>) returns (x: nat, y: nat, i: nat)
    requires forall i :: 0 <= i < |zs| ==> Sensible(zs[i]) && Ascends(Order(zs[i]))
    requires !Separated(zs)
    ensures x < |zs| && y < |zs| && x != y && 0 < i < |Order(zs[x])| && Order(zs[y]) != []
    ensures Order(zs[x])[i] <= Order(zs[y])[0]
  {
    x, y, i :| x < |zs| && y < |zs| && 0 < i < |Order(zs[x])| && Order(zs[y]) != [] && Order(zs[x])[i] <= Order(zs[y])[0];
    assert Ascends(Order(zs[x]));
  }

  /** Any number of payers that would each go through, with planners that pick their bills once: somebody can
      end up waiting in a circle, of whatever length, if and only if some split is not in ascending order,
      or some payer locks after its first bill one that is not above the first bill of another. */
  lemma RingsIff(zs: seq<Payer>, d: Desk)
    requires DeskOk(d) && Quiet(d) && Payers(zs, d)
    ensures CanRing(zs, d) <==> !Separated(zs)
  {
    if Separated(zs) {
      SeparatedNeverRing(zs, d);
    } else {
      UnseparatedRing(zs, d);
    }
  }
}
