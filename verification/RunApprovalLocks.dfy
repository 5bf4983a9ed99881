/** When a run of stops and an approval can block each other: exactly when they come to the bills they
    share at different ones first; the clock, which no planner takes, plays no part. */
module RunApprovalLocks {
  import opened Wrappers
  import opened CollectionModel
  import opened CollectionRuns
  import opened CollectionSafety
  import opened CollectionTheorems
  import opened Planning
  import opened LockOrder
  import opened PlanningLocks
  import opened PayerLocks
  import opened CrossedLocks
  import A = ApprovalLocks
  import S = StopLocks

  function Ints(bills: seq<nat>): seq<int> {
    seq(|bills|, i requires 0 <= i < |bills| => bills[i] as int)
  }

  lemma IntsHave(bills: seq<nat>, m: nat, lock: int)
    requires m <= |bills|
    ensures lock in Ints(bills)[..m] <==> lock >= 0 && lock in bills[..m]
  {
    if lock in Ints(bills)[..m] {
      var i :| 0 <= i < m && Ints(bills)[..m][i] == lock;
      assert bills[..m][i] == lock;
    }
    if lock >= 0 && lock in bills[..m] {
      var i :| 0 <= i < m && bills[..m][i] == lock;
      assert Ints(bills)[..m][i] == lock;
    }
  }

  // ---- a planner and an approval that wait for each other ----

  /** The planner asks for a lock of the approval, and the approval for one of the planner's bills. */
  ghost predicate Stuck(e: Desk, p: nat, u: string) {
    WaitCycle(DeskLocks(e), [ThePlanner(p), TheApproval(u)])
  }

  lemma PlannerWaits(e: Desk, p: nat, y: Party)
    requires WaitsFor(DeskLocks(e), ThePlanner(p), y)
    ensures p in e.planners && e.planners[p].todo != [] && Holder(e, y, e.planners[p].todo[0])
  {
  }

  lemma PlannerHas(e: Desk, p: nat, lock: int)
    requires p in e.planners
    ensures Holder(e, ThePlanner(p), lock) <==> lock >= 0 && lock in e.planners[p].holds
  {
  }

  lemma StuckIsBlocked(e: Desk, p: nat, bills: seq<nat>, m: nat, u: string)
    requires FlightsOk(e.money) && LocksExclusive(e) && Stuck(e, p, u)
    requires p in e.planners && S.OnItsWay(e.planners[p], bills, m)
    ensures u in e.money.open && Blocked(Ints(bills), LockList(BillsOf(e, TheApproval(u))), m, Position(e, TheApproval(u)))
  {
    PairWaits(DeskLocks(e), ThePlanner(p), TheApproval(u));
    PlannerWaits(e, p, TheApproval(u));
    PayerAsks(e, TheApproval(u), ThePlanner(p));
    BothAskIsBlocked(e, p, bills, m, u);
  }

  lemma BothAskIsBlocked(e: Desk, p: nat, bills: seq<nat>, m: nat, u: string)
    requires FlightsOk(e.money) && LocksExclusive(e) && u in e.money.open
    requires p in e.planners && S.OnItsWay(e.planners[p], bills, m) && e.planners[p].todo != []
    requires Holder(e, TheApproval(u), e.planners[p].todo[0])
    requires Position(e, TheApproval(u)) < |LockList(BillsOf(e, TheApproval(u)))|
    requires Holder(e, ThePlanner(p), LockList(BillsOf(e, TheApproval(u)))[Position(e, TheApproval(u))])
    ensures Blocked(Ints(bills), LockList(BillsOf(e, TheApproval(u))), m, Position(e, TheApproval(u)))
  {
    var x := TheApproval(u);
    var q, j := LockList(BillsOf(e, x)), Position(e, x);
    PayerHolds(e, x, bills[m]);
    PlannerHas(e, p, q[j]);
    IntsHave(bills, m, q[j]);
    forall k, l | 0 <= k < m && 0 <= l < j
      ensures Ints(bills)[..m][k] != q[..j][l]
    {
      PlannerHas(e, p, bills[..m][k]);
      PayerHolds(e, x, q[..j][l]);
    }
  }

  // ---- runs of just the two ----

  /** The planner follows its route, and all other steps are the approval's. */
  ghost predicate OnlyBoth(run: seq<Act>, p: nat, stops: seq<S.Stop>, x: A.Split) {
    && S.Own(run, p) <= S.Route(p, stops)
    && forall i :: 0 <= i < |run| ==> S.IsOf(run[i], p) || A.StepOf(A.ByApproval(x), run[i])
  }

  ghost predicate CanDeadlock(d: Desk, p: nat, stops: seq<S.Stop>, x: A.Split) {
    exists run :: Feasible(d, run) && OnlyBoth(run, p, stops, x) && Stuck(Ended(d, run), p, x.uid)
  }

  lemma StepKeepsGiven(e: Desk, a: Act, p: nat, x: A.Split)
    requires Can(e, a) && (S.IsOf(a, p) || A.StepOf(A.ByApproval(x), a)) && A.AsGiven(e, A.ByApproval(x))
    ensures A.AsGiven(Next(e, a), A.ByApproval(x))
  {
    if a.Money? {
      A.WantedStays(e.money, a.action);
    }
  }

  lemma {:induction false} ApprovalIsAsGiven(d: Desk, run: seq<Act>, p: nat, x: A.Split)
    requires Quiet(d) && Feasible(d, run)
    requires forall i :: 0 <= i < |run| ==> S.IsOf(run[i], p) || A.StepOf(A.ByApproval(x), run[i])
    ensures A.AsGiven(Ended(d, run), A.ByApproval(x))
    decreases |run|
  {
    if run != [] {
      var front := run[..|run| - 1];
      assert forall i :: 0 <= i < |front| ==> front[i] == run[i];
      ApprovalIsAsGiven(d, front, p, x);
      StepKeepsGiven(Ended(d, front), run[|run| - 1], p, x);
    }
  }

  lemma StuckIsCrossed(d: Desk, run: seq<Act>, p: nat, stops: seq<S.Stop>, x: A.Split)
    requires DeskOk(d) && Quiet(d) && Feasible(d, run) && OnlyBoth(run, p, stops, x) && Stuck(Ended(d, run), p, x.uid)
    ensures Crossed(Ints(S.RouteBills(stops)), A.Locks(A.ByApproval(x)))
  {
    var e := Ended(d, run);
    RunKeepsDesk(d, run);
    LocksAreExclusive(d, run);
    ApprovalIsAsGiven(d, run, p, x);
    PairWaits(DeskLocks(e), ThePlanner(p), TheApproval(x.uid));
    PlannerWaits(e, p, TheApproval(x.uid));
    var m := S.FollowersAreOnTheirWay(d, run, p, stops);
    StuckIsBlocked(e, p, S.RouteBills(stops), m, x.uid);
    A.GivenBills(e, A.ByApproval(x));
    BlockedIsCrossed(Ints(S.RouteBills(stops)), A.Locks(A.ByApproval(x)), m, Position(e, TheApproval(x.uid)));
  }

  // ---- a run that gets both stuck ----

  lemma {:induction false} ApprovalActsAreNoPlanners(acts: seq<Act>, p: nat, x: A.Split)
    requires forall i :: 0 <= i < |acts| ==> A.StepOf(A.ByApproval(x), acts[i])
    ensures S.Own(acts, p) == []
  {
    if acts != [] {
      ApprovalActsAreNoPlanners(acts[..|acts| - 1], p, x);
    }
  }

  lemma ApprovalThenRoute(acts: seq<Act>, p: nat, stops: seq<S.Stop>, n: nat, x: A.Split)
    requires A.OnlyThem(acts, A.ByApproval(x), A.ByApproval(x)) && n <= |S.Route(p, stops)|
    ensures OnlyBoth(acts + S.Route(p, stops)[..n], p, stops, x)
  {
    ApprovalActsAreNoPlanners(acts, p, x);
    S.PrefixIsOwn(p, stops, n, p + 1);
    S.OwnSplits(acts, S.Route(p, stops)[..n], p);
    assert [] + S.Route(p, stops)[..n] == S.Route(p, stops)[..n];
  }

  lemma ApprovalStands(d: Desk, x: A.Split, j: nat)
    requires DeskOk(d) && Quiet(d) && A.GoesThrough(d.money, A.ByApproval(x)) && 0 < j < |A.Locks(A.ByApproval(x))|
    ensures A.ReachedBy(d, A.At(d, A.ByApproval(x), j), A.ByApproval(x), A.ByApproval(x))
    ensures FlightsOk(A.At(d, A.ByApproval(x), j).money) && A.StandsAt(A.At(d, A.ByApproval(x), j), A.ByApproval(x), j)
  {
    var z := A.ByApproval(x);
    assert Feasible(d, []) && Ended(d, []) == d && A.OnlyThem([], z, z);
    A.QuietIsClear(d, z, j);
    A.TakesItsFirstLocks(d, d, z, z, z, j);
    A.ReachedIsOk(d, A.At(d, z, j), z, z);
    A.OneStands(d, z, j);
  }

  /** The bills that the approval has not locked yet are nobody's. */
  lemma RestIsClear(d: Desk, x: A.Split, j: nat, bills: seq<nat>)
    requires Quiet(d) && 0 < j < |A.Locks(A.ByApproval(x))|
    requires var f := A.At(d, A.ByApproval(x), j); FlightsOk(f.money) && A.StandsAt(f, A.ByApproval(x), j)
    requires forall i :: 0 <= i < |bills| ==> bills[i] !in A.Locks(A.ByApproval(x))[..j]
    ensures S.Clear(A.At(d, A.ByApproval(x), j), bills)
  {
    var f, u := A.At(d, A.ByApproval(x), j), TheApproval(x.uid);
    forall i | 0 <= i < |bills|
      ensures S.NobodyHas(f, bills[i])
    {
      PayerHolds(f, u, bills[i]);
    }
  }

  lemma RunIsDistinct(books: Books, stops: seq<S.Stop>)
    requires S.GoodStops(books, stops)
    ensures Distinct(Ints(S.RouteBills(stops)))
  {
  }

  lemma ApprovalWaits(e: Desk, p: nat, bills: seq<nat>, i: nat, x: A.Split, j: nat)
    requires FlightsOk(e.money) && A.StandsAt(e, A.ByApproval(x), j) && Blocked(Ints(bills), A.Locks(A.ByApproval(x)), i, j)
    requires p in e.planners && S.OnItsWay(e.planners[p], bills, i)
    ensures WaitsFor(DeskLocks(e), TheApproval(x.uid), ThePlanner(p))
  {
    A.StandingAsks(e, A.ByApproval(x), j);
    IntsHave(bills, i, A.Locks(A.ByApproval(x))[j]);
    assert ThePlanner(p) in Parties(e) && TheApproval(x.uid) in Parties(e);
  }

  lemma PlannerWaitsForIt(e: Desk, p: nat, bills: seq<nat>, i: nat, x: A.Split, j: nat)
    requires FlightsOk(e.money) && A.StandsAt(e, A.ByApproval(x), j) && Blocked(Ints(bills), A.Locks(A.ByApproval(x)), i, j)
    requires p in e.planners && e.planners[p].todo != [] && e.planners[p].todo[0] == bills[i]
    ensures WaitsFor(DeskLocks(e), ThePlanner(p), TheApproval(x.uid))
  {
    PayerHolds(e, TheApproval(x.uid), bills[i]);
    assert ThePlanner(p) in Parties(e) && TheApproval(x.uid) in Parties(e);
  }

  lemma WaitingPairIsStuck(e: Desk, p: nat, u: string)
    requires WaitsFor(DeskLocks(e), ThePlanner(p), TheApproval(u)) && WaitsFor(DeskLocks(e), TheApproval(u), ThePlanner(p))
    ensures Stuck(e, p, u)
  {
  }

  lemma OneOfEachWaits(f: Desk, p: nat, w: Planner, bills: seq<nat>, i: nat, x: A.Split, j: nat)
    requires FlightsOk(f.money) && A.StandsAt(f, A.ByApproval(x), j) && Blocked(Ints(bills), A.Locks(A.ByApproval(x)), i, j)
    requires w.todo != [] && S.OnItsWay(w, bills, i)
    ensures Stuck(S.With(f, p, w), p, x.uid)
  {
    var e := S.With(f, p, w);
    assert A.StandsAt(e, A.ByApproval(x), j);
    ApprovalWaits(e, p, bills, i, x, j);
    PlannerWaitsForIt(e, p, bills, i, x, j);
    WaitingPairIsStuck(e, p, x.uid);
  }

  lemma PlannerFollows(d: Desk, f: Desk, p: nat, stops: seq<S.Stop>, i: nat, x: A.Split) returns (run: seq<Act>, w: Planner)
    requires A.ReachedBy(d, f, A.ByApproval(x), A.ByApproval(x)) && f.planners == map[]
    requires S.GoodStops(f.money.books, stops) && i < |S.RouteBills(stops)| && S.Clear(f, S.RouteBills(stops)[..i])
    ensures S.Leads(d, run, S.With(f, p, w)) && OnlyBoth(run, p, stops, x) && S.Asks(w, stops, i)
  {
    var z := A.ByApproval(x);
    var acts :| Feasible(d, acts) && Ended(d, acts) == f && A.OnlyThem(acts, z, z);
    assert S.Leads(d, acts, f);
    var n;
    n, w := S.RouteRunsToAsk(d, acts, f, p, stops, i);
    ApprovalThenRoute(acts, p, stops, n, x);
    run := acts + S.Route(p, stops)[..n];
  }

  lemma StuckCanDeadlock(d: Desk, run: seq<Act>, e: Desk, p: nat, stops: seq<S.Stop>, x: A.Split)
    requires S.Leads(d, run, e) && OnlyBoth(run, p, stops, x) && Stuck(e, p, x.uid)
    ensures CanDeadlock(d, p, stops, x)
  {
    assert Feasible(d, run);
  }

  lemma FirstBillsAreClear(d: Desk, bills: seq<nat>, i: nat, x: A.Split, j: nat)
    requires Quiet(d) && Blocked(Ints(bills), A.Locks(A.ByApproval(x)), i, j)
    requires var f := A.At(d, A.ByApproval(x), j); FlightsOk(f.money) && A.StandsAt(f, A.ByApproval(x), j)
    ensures S.Clear(A.At(d, A.ByApproval(x), j), bills[..i])
  {
    forall k | 0 <= k < i
      ensures bills[..i][k] !in A.Locks(A.ByApproval(x))[..j]
    {
      assert Ints(bills)[..i][k] == bills[..i][k];
    }
    RestIsClear(d, x, j, bills[..i]);
  }

  lemma BlockedGetStuck(d: Desk, p: nat, stops: seq<S.Stop>, i: nat, x: A.Split, j: nat)
    requires DeskOk(d) && Quiet(d) && S.GoodStops(d.money.books, stops) && A.GoesThrough(d.money, A.ByApproval(x))
    requires Blocked(Ints(S.RouteBills(stops)), A.Locks(A.ByApproval(x)), i, j)
    ensures CanDeadlock(d, p, stops, x)
  {
    var f := A.At(d, A.ByApproval(x), j);
    ApprovalStands(d, x, j);
    FirstBillsAreClear(d, S.RouteBills(stops), i, x, j);
    var run, w := PlannerFollows(d, f, p, stops, i, x);
    OneOfEachWaits(f, p, w, S.RouteBills(stops), i, x, j);
    StuckCanDeadlock(d, run, S.With(f, p, w), p, stops, x);
  }

  // ---- exactly when ----

  lemma {:induction false} SharedByMembers(p: seq<int>, q: seq<int>, r: seq<int>)
    requires forall b :: b in p ==> (b in q <==> b in r)
    ensures FirstShared(p, q) == FirstShared(p, r)
  {
    if p != [] {
      var b := p[0];
      assert b in p;
      assert b in q <==> b in r;
      SharedByMembers(p[1..], q, r);
    }
  }

  /** Whether a list without the clock is crossed with the locks of an approval, the clock does not
      decide. */
  lemma ClockCrossesNothing(p: seq<int>, bills: seq<int>)
    requires CLOCK !in p && CLOCK !in bills
    ensures Crossed(p, LockList(bills)) <==> Crossed(p, bills)
  {
    if bills != [] {
      var q := LockList(bills);
      forall b | b in p
        ensures b in q <==> b in bills
      {
        LockListHas(bills, b);
      }
      SharedByMembers(p, q, bills);
      assert q[1..][0] == CLOCK && q[1..][1..] == bills[1..];
      var k := FirstShared(bills[1..], p);
      assert bills[0] !in p ==> FirstShared(q, p) == k + 2 && FirstShared(bills, p) == k + 1;
    }
  }

  lemma IntsHaveNoClock(bills: seq<nat>)
    ensures CLOCK !in Ints(bills)
  {
  }

  /** A run of stops and an approval that would each go through can end up waiting for each other if
      and only if they come to the bills they share at different ones first. */
  lemma RunAndApprovalDeadlockIff(d: Desk, p: nat, stops: seq<S.Stop>, x: A.Split)
    requires DeskOk(d) && Quiet(d) && S.GoodStops(d.money.books, stops) && A.GoesThrough(d.money, A.ByApproval(x))
    ensures CanDeadlock(d, p, stops, x) <==> Crossed(Ints(S.RouteBills(stops)), Bills(A.Wanted(x)))
  {
    var bills, z := Ints(S.RouteBills(stops)), A.ByApproval(x);
    IntsHaveNoClock(S.RouteBills(stops));
    ClockCrossesNothing(bills, A.Order(z));
    if CanDeadlock(d, p, stops, x) {
      var run :| Feasible(d, run) && OnlyBoth(run, p, stops, x) && Stuck(Ended(d, run), p, x.uid);
      StuckIsCrossed(d, run, p, stops, x);
    }
    if Crossed(bills, A.Locks(z)) {
      RunIsDistinct(d.money.books, stops);
      A.OrdersAreDistinct(d.money, z);
      var i, j := CrossedCanBlock(bills, A.Locks(z));
      BlockedGetStuck(d, p, stops, i, x, j);
    }
  }
}
