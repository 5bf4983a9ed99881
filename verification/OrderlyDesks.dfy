/** Desks on which nobody waits in a circle of any length: planners pick their bills once, in id order, and
    what approvals and receipts take before the clock has lower ids than what approvals take after it. */
module OrderlyDesks {
  import opened Wrappers
  import opened CollectionKeys
  import opened CollectionModel
  import opened CollectionRuns
  import opened CollectionSafety
  import opened Planning
  import opened LockOrder
  import opened PlanningLocks
  import opened PayerLocks

  /** Of the bills of an approval the first is at most `t`, and the others are above it, in ascending
      order. */
  predicate Around(t: int, bills: seq<int>) {
    && (bills != [] ==> bills[0] <= t)
    && (forall i :: 0 < i < |bills| ==> t < bills[i])
    && forall i, j :: 0 < i < j < |bills| ==> bills[i] < bills[j]
  }

  /** The clock comes between bill `t` and the next. */
  function Rank(t: int, lock: int): int {
    if lock == CLOCK then 2 * t + 1 else 2 * lock
  }

  lemma LocksAscend(t: int, bills: seq<int>, i: nat, j: nat)
    requires Around(t, bills) && CLOCK !in bills && i < j < |LockList(bills)|
    ensures Rank(t, LockList(bills)[i]) < Rank(t, LockList(bills)[j])
  {
    var list := LockList(bills);
    assert bills[0] in bills;
    assert i > 1 ==> list[i] == bills[i - 1] && bills[i - 1] in bills;
    assert j > 1 ==> list[j] == bills[j - 1] && bills[j - 1] in bills;
  }

  /** A planner picks its bills once, an owner's split is around `t`, and receipts and edits are of bills
      up to `t`. */
  ghost predicate Orderly(t: int, d: Desk, a: Act) {
    && (a.Resolve? && a.p in d.planners ==> d.planners[a.p].holds == {})
    && (a.Money? && a.action.Open? ==> Around(t, Bills(PositivePart(a.action.allocations))))
    && (a.Take? && OnOneBill(a.work) ==> BillOf(a.work) <= t)
  }

  ghost predicate PlannerInOrder(x: Planner) {
    && (forall i, j :: 0 <= i < j < |x.todo| ==> x.todo[i] < x.todo[j])
    && forall b, i :: b in x.holds && 0 <= i < |x.todo| ==> b < x.todo[i]
  }

  ghost predicate InOrder(t: int, d: Desk) {
    && (forall p :: p in d.planners ==> PlannerInOrder(d.planners[p]))
    && (forall uid :: uid in d.money.open ==> Around(t, Bills(d.money.open[uid].wanted)))
    && forall u :: u in d.tills ==> d.tills[u].bill <= t
  }

  ghost predicate FlightsInOrder(t: int, s: System) {
    forall uid :: uid in s.open ==> Around(t, Bills(s.open[uid].wanted))
  }

  lemma MoneyKeepsOrder(t: int, s: System, m: Action)
    requires Enabled(s, m) && FlightsInOrder(t, s) && (m.Open? ==> Around(t, Bills(PositivePart(m.allocations))))
    ensures FlightsInOrder(t, Apply(s, m))
  {
    if m.Open? {
      OpenAddsAFlight(s, m.uid, m.allocations, m.expected);
    } else if !m.Record? {
      OtherStepsKeepFlights(s, m);
    }
  }

  lemma PlannerStepKeepsOrder(t: int, d: Desk, a: Act)
    requires Can(d, a) && Orderly(t, d, a) && InOrder(t, d) && !a.Money? && !a.Settle? && !a.Take?
    ensures InOrder(t, Next(d, a))
  {
    match a
    case Lock(p) =>
      var x := d.planners[p];
      assert PlannerInOrder(x);
      assert PlannerInOrder(x.(todo := x.todo[1..], holds := x.holds + {x.todo[0]}));
    case Plan(p, uid, task) => assert PlannerInOrder(d.planners[p]);
    case Reopen(p, uid) => assert PlannerInOrder(d.planners[p]);
    case _ =>
  }

  lemma PayerStepKeepsOrder(t: int, d: Desk, a: Act)
    requires Can(d, a) && Orderly(t, d, a) && InOrder(t, d) && (a.Money? || a.Settle? || a.Take?)
    ensures InOrder(t, Next(d, a))
  {
    match a
    case Money(m) => MoneyKeepsOrder(t, d.money, m);
    case Settle(u) => MoneyKeepsOrder(t, d.money, d.tills[u].work);
    case _ =>
  }

  lemma StepKeepsOrder(t: int, d: Desk, a: Act)
    requires Can(d, a) && Orderly(t, d, a) && InOrder(t, d)
    ensures InOrder(t, Next(d, a))
  {
    if a.Money? || a.Settle? || a.Take? {
      PayerStepKeepsOrder(t, d, a);
    } else {
      PlannerStepKeepsOrder(t, d, a);
    }
  }

  ghost predicate OrderlyRun(t: int, d: Desk, run: seq<Act>)
    requires Feasible(d, run)
    decreases |run|
  {
    run == [] || (OrderlyRun(t, d, run[..|run| - 1]) && Orderly(t, Ended(d, run[..|run| - 1]), run[|run| - 1]))
  }

  lemma {:induction false} RunKeepsOrder(t: int, d: Desk, run: seq<Act>)
    requires InOrder(t, d) && Feasible(d, run) && OrderlyRun(t, d, run)
    ensures InOrder(t, Ended(d, run))
    decreases |run|
  {
    if run != [] {
      var front := run[..|run| - 1];
      RunKeepsOrder(t, d, front);
      StepKeepsOrder(t, Ended(d, front), run[|run| - 1]);
    }
  }

  /** What a payer holds comes before what it asks for. */
  lemma PayersAscend(t: int, d: Desk, x: Party, h: int)
    requires FlightsOk(d.money) && InOrder(t, d) && IsParty(d, x) && !x.ThePlanner? && AsksOne(d, x) && h in HoldsOf(d, x)
    ensures Rank(t, h) < Rank(t, AskOf(d, x))
  {
    var list, k := LockList(BillsOf(d, x)), Position(d, x);
    PayerHolds(d, x, h);
    assert Holder(d, x, h);
    var i :| 0 <= i < k && list[..k][i] == h;
    if x.TheApproval? {
      assert FlightOk(d.money.books, x.uid, d.money.open[x.uid]);
      NextOfApproval(d, x.uid);
    }
    LocksAscend(t, BillsOf(d, x), i, k);
  }

  lemma PlannersAscend(t: int, d: Desk, p: nat, h: int)
    requires InOrder(t, d) && IsParty(d, ThePlanner(p)) && AsksOne(d, ThePlanner(p)) && h in HoldsOf(d, ThePlanner(p))
    ensures Rank(t, h) < Rank(t, AskOf(d, ThePlanner(p)))
  {
    assert PlannerInOrder(d.planners[p]);
  }

  lemma PartiesAscend(t: int, d: Desk, x: Party, h: int)
    requires FlightsOk(d.money) && InOrder(t, d) && x in DeskLocks(d).asks && x in DeskLocks(d).holds && h in DeskLocks(d).holds[x]
    ensures Rank(t, h) < Rank(t, DeskLocks(d).asks[x])
  {
    if x.ThePlanner? {
      PlannersAscend(t, d, x.p, h);
    } else {
      PayersAscend(t, d, x, h);
    }
  }

  lemma DesksAscend(t: int, d: Desk, cycle: seq<Party>)
    requires FlightsOk(d.money) && InOrder(t, d)
    ensures AscendingAlong(DeskLocks(d), cycle, lock => Rank(t, lock))
  {
    var w := DeskLocks(d);
    forall i, h | 0 <= i < |cycle| && cycle[i] in w.asks && cycle[i] in w.holds && h in w.holds[cycle[i]]
      ensures Rank(t, h) < Rank(t, w.asks[cycle[i]])
    {
      PartiesAscend(t, d, cycle[i], h);
    }
  }

  /** Planners that pick their bills once, approvals around a bill `t`, and receipts and edits of bills up
      to it never wait for each other in a circle. */
  lemma OrderlyDesksNeverDeadlock(t: int, d: Desk, run: seq<Act>, cycle: seq<Party>)
    requires DeskOk(d) && Quiet(d) && Feasible(d, run) && OrderlyRun(t, d, run)
    ensures !WaitCycle(DeskLocks(Ended(d, run)), cycle)
  {
    RunKeepsDesk(d, run);
    RunKeepsOrder(t, d, run);
    DesksAscend(t, Ended(d, run), cycle);
    AscendingNeverCycles(DeskLocks(Ended(d, run)), cycle, lock => Rank(t, lock));
  }
}
