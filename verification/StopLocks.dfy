/** When two runs of stops can block each other: a run picks the bills of its stops one stop after
    the other, and keeps every lock until all its stops are planned. */
module StopLocks {
  import opened Wrappers
  import opened CollectionKeys
  import opened CollectionModel
  import opened CollectionRuns
  import opened CollectionSafety
  import opened Planning
  import opened LockOrder
  import opened PlanningLocks
  import opened CrossedLocks

  const DELIVERY := "delivery"

  /** A stop: the bills to deliver there, picked in id order, and the task they go on. */
  datatype Stop = Stop(bills: seq<nat>, uid: string, customer: Option<nat>)

  function TaskOf(s: Stop): Task {
    Task(DELIVERY, Pending, 0, SetOf(s.bills), s.customer)
  }

  /** What planning a stop does: ask for its bills, lock them one by one, plan the delivery. */
  function StopActs(p: nat, s: Stop): seq<Act> {
    [Resolve(p, s.bills)] + seq(|s.bills|, i => Lock(p)) + [Plan(p, s.uid, TaskOf(s))]
  }

  function Route(p: nat, stops: seq<Stop>): seq<Act> {
    if stops == [] then [Begin(p)] else Route(p, stops[..|stops| - 1]) + StopActs(p, stops[|stops| - 1])
  }

  /** The bills of a run, in the order in which it locks them. */
  function RouteBills(stops: seq<Stop>): seq<nat> {
    if stops == [] then [] else RouteBills(stops[..|stops| - 1]) + stops[|stops| - 1].bills
  }

  // ---- a planner's own acts decide where it stands ----

  /** The acts of planners. */
  predicate IsOf(a: Act, p: nat) {
    (a.Begin? || a.Resolve? || a.Lock? || a.Plan? || a.Reopen? || a.Finish? || a.GiveUp?) && a.p == p
  }

  predicate OnlyPlans(a: Act, p: nat) {
    (a.Begin? || a.Resolve? || a.Lock? || a.Plan?) && a.p == p
  }

  function Own(run: seq<Act>, p: nat): seq<Act> {
    if run == [] then []
    else Own(run[..|run| - 1], p) + if IsOf(run[|run| - 1], p) then [run[|run| - 1]] else []
  }

  function Stepped(x: Option<Planner>, a: Act): Option<Planner> {
    match a
    case Begin(_) => Some(Planner([], {}, map[]))
    case Resolve(_, todo) => if x.Some? then Some(x.value.(todo := todo)) else None
    case Lock(_) =>
      if x.Some? && x.value.todo != [] then Some(x.value.(todo := x.value.todo[1..], holds := x.value.holds + {x.value.todo[0]}))
      else None
    case Plan(_, uid, task) => if x.Some? then Some(x.value.(drafts := x.value.drafts[uid := task])) else None
    case _ => None
  }

  function Stands(acts: seq<Act>): Option<Planner> {
    if acts == [] then None else Stepped(Stands(acts[..|acts| - 1]), acts[|acts| - 1])
  }

  function PlannerOf(d: Desk, p: nat): Option<Planner> {
    if p in d.planners then Some(d.planners[p]) else None
  }

  lemma {:induction false} OwnActsDecide(d: Desk, run: seq<Act>, p: nat)
    requires d.planners == map[] && Feasible(d, run)
    requires forall i :: 0 <= i < |Own(run, p)| ==> OnlyPlans(Own(run, p)[i], p)
    ensures PlannerOf(Ended(d, run), p) == Stands(Own(run, p))
    decreases |run|
  {
    if run != [] {
      var front, a := run[..|run| - 1], run[|run| - 1];
      var own := Own(run, p);
      if IsOf(a, p) {
        assert own[|own| - 1] == a && own[..|own| - 1] == Own(front, p);
        assert forall i :: 0 <= i < |Own(front, p)| ==> Own(front, p)[i] == own[i];
        OwnActsDecide(d, front, p);
        OwnStep(Ended(d, front), a, p);
      } else {
        assert own == Own(front, p);
        OwnActsDecide(d, front, p);
        OthersStep(Ended(d, front), a, p);
      }
    }
  }

  lemma OwnStep(d: Desk, a: Act, p: nat)
    requires Can(d, a) && OnlyPlans(a, p)
    ensures PlannerOf(Next(d, a), p) == Stepped(PlannerOf(d, p), a)
  {
  }

  lemma OthersStep(d: Desk, a: Act, p: nat)
    requires Can(d, a) && !IsOf(a, p)
    ensures PlannerOf(Next(d, a), p) == PlannerOf(d, p)
  {
  }

  // ---- where a planner stands along its route ----

  lemma StandsNext(acts: seq<Act>, a: Act)
    ensures Stands(acts + [a]) == Stepped(Stands(acts), a)
  {
    assert (acts + [a])[..|acts|] == acts;
  }

  /** The planner after the first `k` acts of a stop. */
  function AlongStop(x: Planner, s: Stop, k: nat): Planner
    requires k <= |s.bills| + 2
  {
    if k == 0 then x
    else if k == |s.bills| + 2 then Planner([], x.holds + SetOf(s.bills), x.drafts[s.uid := TaskOf(s)])
    else Planner(s.bills[k - 1..], x.holds + SetOf(s.bills[..k - 1]), x.drafts)
  }

  lemma AlongStopNext(p: nat, x: Planner, s: Stop, k: nat)
    requires x.todo == [] && k < |s.bills| + 2
    ensures Stepped(Some(AlongStop(x, s, k)), StopActs(p, s)[k]) == Some(AlongStop(x, s, k + 1))
  {
    if 0 < k <= |s.bills| {
      assert s.bills[..k] == s.bills[..k - 1] + [s.bills[k - 1]];
      assert AlongStop(x, s, k).holds + {s.bills[k - 1]} == x.holds + SetOf(s.bills[..k]);
    } else if k == 0 {
      assert s.bills[0..] == s.bills && x.holds + SetOf(s.bills[..0]) == x.holds;
    } else {
      assert s.bills[..|s.bills|] == s.bills && s.bills[|s.bills|..] == [];
    }
  }

  lemma OneMore<T>(front: seq<T>, rest: seq<T>, k: nat)
    requires k < |rest|
    ensures front + rest[..k + 1] == front + rest[..k] + [rest[k]]
  {
  }

  lemma StandsOneFurther(acts: seq<Act>, p: nat, x: Planner, s: Stop, k: nat)
    requires x.todo == [] && k < |s.bills| + 2 && Stands(acts + StopActs(p, s)[..k]) == Some(AlongStop(x, s, k))
    ensures Stands(acts + StopActs(p, s)[..k + 1]) == Some(AlongStop(x, s, k + 1))
  {
    var more := StopActs(p, s);
    AlongStopNext(p, x, s, k);
    OneMore(acts, more, k);
    StandsNext(acts + more[..k], more[k]);
  }

  lemma {:induction false} StandsAlongStop(acts: seq<Act>, p: nat, x: Planner, s: Stop, k: nat)
    requires Stands(acts) == Some(x) && x.todo == [] && k <= |s.bills| + 2
    ensures Stands(acts + StopActs(p, s)[..k]) == Some(AlongStop(x, s, k))
  {
    if k == 0 {
      assert acts + StopActs(p, s)[..0] == acts;
    } else {
      StandsAlongStop(acts, p, x, s, k - 1);
      StandsOneFurther(acts, p, x, s, k - 1);
    }
  }

  function DraftsOf(stops: seq<Stop>): map<string, Task> {
    if stops == [] then map[] else DraftsOf(stops[..|stops| - 1])[stops[|stops| - 1].uid := TaskOf(stops[|stops| - 1])]
  }

  /** The planner with all these stops planned. */
  function AtEnd(stops: seq<Stop>): Planner {
    Planner([], SetOf(RouteBills(stops)), DraftsOf(stops))
  }

  lemma {:induction false} StandsAtEnd(p: nat, stops: seq<Stop>)
    ensures Stands(Route(p, stops)) == Some(AtEnd(stops))
  {
    if stops == [] {
      StandsNext([], Begin(p));
      assert [] + [Begin(p)] == Route(p, stops) && SetOf(RouteBills(stops)) == {};
    } else {
      var front, s := stops[..|stops| - 1], stops[|stops| - 1];
      StandsAtEnd(p, front);
      StandsAlongStop(Route(p, front), p, AtEnd(front), s, |s.bills| + 2);
      assert StopActs(p, s)[..|s.bills| + 2] == StopActs(p, s);
      assert AlongStop(AtEnd(front), s, |s.bills| + 2).holds == AtEnd(stops).holds;
    }
  }

  /** A planner that holds the first `m` bills of its run, and asks for the next one if it asks at all. */
  ghost predicate OnItsWay(x: Planner, bills: seq<nat>, m: nat) {
    && m <= |bills| && (forall b :: b in x.holds <==> b in bills[..m])
    && (x.todo != [] ==> m < |bills| && x.todo[0] == bills[m])
  }

  lemma StopIsOnItsWay(front: seq<Stop>, s: Stop, k: nat)
    requires 0 < k <= |s.bills| + 2
    ensures var m := |RouteBills(front)| + if k == |s.bills| + 2 then |s.bills| else k - 1;
            OnItsWay(AlongStop(AtEnd(front), s, k), RouteBills(front) + s.bills, m)
  {
    var bills, l := RouteBills(front) + s.bills, if k == |s.bills| + 2 then |s.bills| else k - 1;
    assert bills[..|RouteBills(front)| + l] == RouteBills(front) + s.bills[..l];
    assert s.bills[..|s.bills|] == s.bills;
  }

  lemma StandsOnLastStop(p: nat, front: seq<Stop>, s: Stop, k: nat) returns (m: nat)
    requires 0 < k <= |s.bills| + 2
    ensures Stands(Route(p, front) + StopActs(p, s)[..k]) == Some(AlongStop(AtEnd(front), s, k))
    ensures OnItsWay(AlongStop(AtEnd(front), s, k), RouteBills(front) + s.bills, m)
  {
    StandsAtEnd(p, front);
    StandsAlongStop(Route(p, front), p, AtEnd(front), s, k);
    StopIsOnItsWay(front, s, k);
    m := |RouteBills(front)| + if k == |s.bills| + 2 then |s.bills| else k - 1;
  }

  lemma FewerBillsOnItsWay(x: Planner, bills: seq<nat>, m: nat, more: seq<nat>)
    requires OnItsWay(x, bills, m)
    ensures OnItsWay(x, bills + more, m)
  {
    assert (bills + more)[..m] == bills[..m];
  }

  lemma {:induction false} StandsOnRoute(p: nat, stops: seq<Stop>, n: nat) returns (m: nat)
    requires 0 < n <= |Route(p, stops)|
    ensures Stands(Route(p, stops)[..n]).Some? && OnItsWay(Stands(Route(p, stops)[..n]).value, RouteBills(stops), m)
  {
    if stops == [] {
      assert Route(p, stops)[..n] == [] + [Begin(p)];
      StandsNext([], Begin(p));
      m := 0;
    } else {
      var front, s := stops[..|stops| - 1], stops[|stops| - 1];
      if n <= |Route(p, front)| {
        m := StandsOnRoute(p, front, n);
        FewerBillsOnItsWay(Stands(Route(p, front)[..n]).value, RouteBills(front), m, s.bills);
        assert Route(p, stops)[..n] == Route(p, front)[..n];
      } else {
        m := StandsOnLastStop(p, front, s, n - |Route(p, front)|);
        assert Route(p, stops)[..n] == Route(p, front) + StopActs(p, s)[..n - |Route(p, front)|];
      }
    }
  }

  // ---- planners that wait for each other ----

  /** Wherever two planners wait for each other, having followed their routes, whatever else was
      going on: the bills of their runs are crossed. */
  lemma WaitingRunsAreCrossed(d: Desk, run: seq<Act>, p: nat, stops: seq<Stop>, q: nat, others: seq<Stop>)
    requires DeskOk(d) && d.planners == map[] && Feasible(d, run)
    requires Own(run, p) <= Route(p, stops) && Own(run, q) <= Route(q, others)
    requires WaitCycle(DeskLocks(Ended(d, run)), [ThePlanner(p), ThePlanner(q)])
    ensures Crossed(RouteBills(stops), RouteBills(others))
  {
    var e := Ended(d, run);
    PairWaits(DeskLocks(e), ThePlanner(p), ThePlanner(q));
    PlannersAsk(e, p, q);
    var m := FollowersAreOnTheirWay(d, run, p, stops);
    var n := FollowersAreOnTheirWay(d, run, q, others);
    RunKeepsDesk(d, run);
    EachPlannerAsksForTheOthers(e, p, q, RouteBills(stops), RouteBills(others), m, n);
    BlockedIsCrossed(RouteBills(stops), RouteBills(others), m, n);
  }

  lemma {:induction false} RoutesOnlyPlan(p: nat, stops: seq<Stop>)
    ensures forall i :: 0 <= i < |Route(p, stops)| ==> OnlyPlans(Route(p, stops)[i], p)
  {
    if stops != [] {
      RoutesOnlyPlan(p, stops[..|stops| - 1]);
    }
  }

  lemma FollowersAreOnTheirWay(d: Desk, run: seq<Act>, p: nat, stops: seq<Stop>) returns (m: nat)
    requires d.planners == map[] && Feasible(d, run) && p in Ended(d, run).planners && Own(run, p) <= Route(p, stops)
    ensures OnItsWay(Ended(d, run).planners[p], RouteBills(stops), m)
  {
    var n := |Own(run, p)|;
    RoutesOnlyPlan(p, stops);
    assert Own(run, p) == Route(p, stops)[..n];
    OwnActsDecide(d, run, p);
    assert n > 0;
    m := StandsOnRoute(p, stops, n);
  }

  lemma PlannerAsks(e: Desk, p: nat, y: Party)
    requires WaitsFor(DeskLocks(e), ThePlanner(p), y)
    ensures p in e.planners && e.planners[p].todo != []
    ensures DeskLocks(e).asks[ThePlanner(p)] == e.planners[p].todo[0]
  {
  }

  lemma PlannerHolds(e: Desk, p: nat, b: nat)
    requires p in e.planners
    ensures ThePlanner(p) in DeskLocks(e).holds && (b in DeskLocks(e).holds[ThePlanner(p)] <==> b in e.planners[p].holds)
  {
    assert ThePlanner(p) in Parties(e);
  }

  /** Each of the two asks for a bill that the other has. */
  ghost predicate AskEachOther(e: Desk, p: nat, q: nat) {
    && p in e.planners && q in e.planners && p != q && e.planners[p].todo != [] && e.planners[q].todo != []
    && e.planners[p].todo[0] in e.planners[q].holds && e.planners[q].todo[0] in e.planners[p].holds
  }

  lemma PlannersAsk(e: Desk, p: nat, q: nat)
    requires WaitsFor(DeskLocks(e), ThePlanner(p), ThePlanner(q)) && WaitsFor(DeskLocks(e), ThePlanner(q), ThePlanner(p))
    ensures AskEachOther(e, p, q)
  {
    PlannerAsks(e, p, ThePlanner(q));
    PlannerAsks(e, q, ThePlanner(p));
    PlannerHolds(e, q, e.planners[p].todo[0]);
    PlannerHolds(e, p, e.planners[q].todo[0]);
  }

  lemma EachPlannerAsksForTheOthers(e: Desk, p: nat, q: nat, bills: seq<nat>, others: seq<nat>, m: nat, n: nat)
    requires LocksApart(e.planners)
    requires AskEachOther(e, p, q) && OnItsWay(e.planners[p], bills, m)
    requires q in e.planners && OnItsWay(e.planners[q], others, n)
    ensures Blocked(bills, others, m, n)
  {
    forall i, j | 0 <= i < m && 0 <= j < n
      ensures bills[..m][i] != others[..n][j]
    {
      assert bills[..m][i] in e.planners[p].holds && others[..n][j] in e.planners[q].holds;
    }
  }

  // ---- a run that goes through ----

  /** What a run's stops need on their own: bills that are there, assignable to the shop's customer
      and on no live delivery; each bill on one stop only; and tasks with uids of their own. */
  ghost predicate GoodStops(books: Books, stops: seq<Stop>) {
    && Distinct(RouteBills(stops))
    && (forall i :: 0 <= i < |stops| ==> GoodStop(books, stops[i]))
    && forall i, j :: 0 <= i < j < |stops| ==> stops[i].uid != stops[j].uid
  }

  ghost predicate GoodStop(books: Books, s: Stop) {
    && (forall i, j :: 0 <= i < j < |s.bills| ==> s.bills[i] < s.bills[j])
    && (forall i :: 0 <= i < |s.bills| ==> Assignable(books, s.bills[i], s.customer))
    && (forall u :: Live(books, u) && books.tasks[u].kind == DELIVERY ==> books.tasks[u].linked !! SetOf(s.bills))
    && |s.uid| == UID_LENGTH && s.uid !in books.tasks
  }

  /** The desk with one more planner on it. */
  function With(d: Desk, p: nat, x: Planner): Desk {
    d.(planners := d.planners[p := x])
  }

  /** The run is feasible and ends in `e`; quantified, so that runs are unfolded only where a proof
      names them. */
  ghost predicate Leads(d: Desk, run: seq<Act>, e: Desk) {
    forall acts :: acts == run ==> Feasible(d, acts) && Ended(d, acts) == e
  }

  lemma LeadsOn(d: Desk, run: seq<Act>, e: Desk, a: Act, run': seq<Act>, e': Desk)
    requires Leads(d, run, e) && Can(e, a) && Next(e, a) == e' && run' == run + [a]
    ensures Leads(d, run', e')
  {
    assert Feasible(d, run);
    assert (run + [a])[..|run|] == run;
  }

  /** A planner with no lock left to ask for can add the stop to its run. */
  ghost predicate Fits(e: Desk, p: nat, x: Planner, s: Stop) {
    && p !in e.planners && x.todo == [] && GoodStop(e.money.books, s) && s.uid !in x.drafts && Undrafted(e, s.uid)
    && forall u :: u in x.drafts && x.drafts[u].kind == DELIVERY ==> x.drafts[u].linked !! SetOf(s.bills)
  }

  predicate NobodyHas(d: Desk, bill: nat) {
    Unlocked(d, bill, None) && Free(d.money, bill, None) && Loose(d, bill)
  }

  /** Nobody else has locked any of the bills. */
  ghost predicate Clear(d: Desk, bills: seq<nat>) {
    forall i :: 0 <= i < |bills| ==> NobodyHas(d, bills[i])
  }

  lemma LockStep(d: Desk, p: nat, x: Planner, s: Stop, k: nat)
    requires Fits(d, p, x, s) && 0 < k <= |s.bills| && NobodyHas(d, s.bills[k - 1])
    ensures Can(With(d, p, AlongStop(x, s, k)), Lock(p))
  {
    assert Assignable(d.money.books, s.bills[k - 1], s.customer);
  }

  lemma PlanStep(d: Desk, p: nat, x: Planner, s: Stop)
    requires Fits(d, p, x, s)
    ensures Can(With(d, p, AlongStop(x, s, |s.bills| + 1)), Plan(p, s.uid, TaskOf(s)))
  {
    assert s.bills[..|s.bills|] == s.bills && s.bills[|s.bills|..] == [];
  }

  lemma StopStep(d: Desk, p: nat, x: Planner, s: Stop, k: nat)
    requires Fits(d, p, x, s) && k < |s.bills| + 2
    requires 0 < k <= |s.bills| ==> NobodyHas(d, s.bills[k - 1])
    ensures var e := With(d, p, AlongStop(x, s, k));
            Can(e, StopActs(p, s)[k]) && Next(e, StopActs(p, s)[k]) == With(d, p, AlongStop(x, s, k + 1))
  {
    AlongStopNext(p, x, s, k);
    if 0 < k <= |s.bills| {
      LockStep(d, p, x, s, k);
    } else if k > 0 {
      PlanStep(d, p, x, s);
    }
  }

  /** How many bills are locked after the first `k` acts of a stop. */
  function Locked(s: Stop, k: nat): (l: nat)
    ensures l <= |s.bills| && (k > 0 ==> l <= k - 1)
  {
    if k == 0 then 0 else if k - 1 <= |s.bills| then k - 1 else |s.bills|
  }

  lemma StaysClear(e: Desk, s: Stop, k: nat)
    requires 0 < k <= |s.bills| + 2 && Clear(e, s.bills[..Locked(s, k)])
    ensures Clear(e, s.bills[..Locked(s, k - 1)])
    ensures 0 < k - 1 <= |s.bills| ==> NobodyHas(e, s.bills[k - 2])
  {
    ClearFewer(e, s.bills, Locked(s, k - 1), Locked(s, k));
    if 0 < k - 1 <= |s.bills| {
      assert s.bills[..Locked(s, k)][k - 2] == s.bills[k - 2];
    }
  }

  lemma StopRunsOne(d: Desk, run: seq<Act>, e: Desk, p: nat, x: Planner, s: Stop, k: nat)
    requires Fits(e, p, x, s) && k < |s.bills| + 2
    requires Leads(d, run + StopActs(p, s)[..k], With(e, p, AlongStop(x, s, k)))
    requires 0 < k <= |s.bills| ==> NobodyHas(e, s.bills[k - 1])
    ensures Leads(d, run + StopActs(p, s)[..k + 1], With(e, p, AlongStop(x, s, k + 1)))
  {
    var acts, before, after := StopActs(p, s), With(e, p, AlongStop(x, s, k)), With(e, p, AlongStop(x, s, k + 1));
    StopStep(e, p, x, s, k);
    OneMore(run, acts, k);
    LeadsOn(d, run + acts[..k], before, acts[k], run + acts[..k + 1], after);
  }

  lemma {:induction false} StopRuns(d: Desk, run: seq<Act>, e: Desk, p: nat, x: Planner, s: Stop, k: nat)
    requires Leads(d, run, With(e, p, x)) && Fits(e, p, x, s) && k <= |s.bills| + 2 && Clear(e, s.bills[..Locked(s, k)])
    ensures Leads(d, run + StopActs(p, s)[..k], With(e, p, AlongStop(x, s, k)))
  {
    if k == 0 {
      assert run + StopActs(p, s)[..0] == run;
    } else {
      StaysClear(e, s, k);
      StopRuns(d, run, e, p, x, s, k - 1);
      StopRunsOne(d, run, e, p, x, s, k - 1);
    }
  }

  lemma ClearFewer(e: Desk, bills: seq<nat>, m: nat, n: nat)
    requires m <= n <= |bills| && Clear(e, bills[..n])
    ensures Clear(e, bills[..m])
  {
    assert forall i :: 0 <= i < m ==> bills[..m][i] == bills[..n][i];
  }

  lemma {:induction false} DraftsAreOfStops(stops: seq<Stop>, u: string)
    requires u in DraftsOf(stops)
    ensures (exists i :: 0 <= i < |stops| && stops[i].uid == u) && DraftsOf(stops)[u].linked <= SetOf(RouteBills(stops))
  {
    var front := stops[..|stops| - 1];
    if u != stops[|stops| - 1].uid {
      DraftsAreOfStops(front, u);
      var i :| 0 <= i < |front| && front[i].uid == u;
      assert stops[i].uid == u;
    }
  }

  lemma StopsSplit(books: Books, stops: seq<Stop>)
    requires GoodStops(books, stops) && stops != []
    ensures GoodStops(books, stops[..|stops| - 1]) && GoodStop(books, stops[|stops| - 1])
    ensures var front, s := stops[..|stops| - 1], stops[|stops| - 1];
            && s.uid !in DraftsOf(front)
            && forall u :: u in DraftsOf(front) ==> DraftsOf(front)[u].linked !! SetOf(s.bills)
  {
    var front, s := stops[..|stops| - 1], stops[|stops| - 1];
    var l := |RouteBills(front)|;
    forall i, j | 0 <= i < j < l
      ensures RouteBills(front)[i] != RouteBills(front)[j]
    {
      assert RouteBills(stops)[i] == RouteBills(front)[i] && RouteBills(stops)[j] == RouteBills(front)[j];
    }
    forall i, j | 0 <= i < l && 0 <= j < |s.bills|
      ensures RouteBills(front)[i] != s.bills[j]
    {
      assert RouteBills(stops)[i] == RouteBills(front)[i] && RouteBills(stops)[l + j] == s.bills[j];
    }
    forall u | u in DraftsOf(front)
      ensures u != s.uid && DraftsOf(front)[u].linked !! SetOf(s.bills)
    {
      DraftsAreOfStops(front, u);
    }
  }

  ghost predicate AllUndrafted(e: Desk, stops: seq<Stop>) {
    forall i :: 0 <= i < |stops| ==> Undrafted(e, stops[i].uid)
  }

  lemma ClearParts(e: Desk, front: seq<nat>, rest: seq<nat>, l: nat)
    requires l <= |rest| && Clear(e, (front + rest)[..|front| + l])
    ensures Clear(e, front) && Clear(e, rest[..l])
  {
    var all := (front + rest)[..|front| + l];
    assert forall i :: 0 <= i < |front| ==> all[i] == front[i];
    assert forall i :: 0 <= i < l ==> all[|front| + i] == rest[..l][i];
  }

  lemma RouteBegins(d: Desk, run: seq<Act>, e: Desk, p: nat)
    requires Leads(d, run, e) && p !in e.planners
    ensures Leads(d, run + Route(p, []), With(e, p, AtEnd([])))
  {
    assert SetOf(RouteBills([])) == {};
    LeadsOn(d, run, e, Begin(p), run + Route(p, []), With(e, p, AtEnd([])));
  }

  /** The stop can be added to a run with the stops of `front`. */
  ghost predicate Follows(e: Desk, p: nat, front: seq<Stop>, s: Stop) {
    && p !in e.planners && GoodStop(e.money.books, s) && s.uid !in DraftsOf(front) && Undrafted(e, s.uid)
    && forall u :: u in DraftsOf(front) ==> DraftsOf(front)[u].linked !! SetOf(s.bills)
  }

  lemma RoutePrefix(run: seq<Act>, p: nat, front: seq<Stop>, s: Stop, k: nat)
    requires k <= |s.bills| + 2
    ensures |Route(p, front)| + k <= |Route(p, front + [s])|
    ensures run + Route(p, front + [s])[..|Route(p, front)| + k] == run + Route(p, front) + StopActs(p, s)[..k]
  {
    assert (front + [s])[..|front|] == front;
    assert Route(p, front + [s]) == Route(p, front) + StopActs(p, s);
  }

  /** With the stops before it planned, a stop gets through its first `k` acts. */
  lemma StopAfterRoute(d: Desk, run: seq<Act>, e: Desk, p: nat, front: seq<Stop>, s: Stop, k: nat)
    requires Leads(d, run + Route(p, front), With(e, p, AtEnd(front)))
    requires Follows(e, p, front, s) && k <= |s.bills| + 2 && Clear(e, s.bills[..Locked(s, k)])
    ensures |Route(p, front)| + k <= |Route(p, front + [s])|
    ensures Leads(d, run + Route(p, front + [s])[..|Route(p, front)| + k], With(e, p, AlongStop(AtEnd(front), s, k)))
  {
    StopRuns(d, run + Route(p, front), e, p, AtEnd(front), s, k);
    RoutePrefix(run, p, front, s, k);
  }

  lemma AlongWholeStop(front: seq<Stop>, s: Stop)
    ensures AlongStop(AtEnd(front), s, |s.bills| + 2) == AtEnd(front + [s])
  {
    assert (front + [s])[..|front|] == front;
    assert AtEnd(front).holds + SetOf(s.bills) == SetOf(RouteBills(front) + s.bills);
  }

  lemma WholeRoute(p: nat, front: seq<Stop>, s: Stop)
    ensures |Route(p, front + [s])| == |Route(p, front)| + |s.bills| + 2
    ensures RouteBills(front + [s]) == RouteBills(front) + s.bills
    ensures forall n :: 0 <= n <= |Route(p, front)| ==> Route(p, front + [s])[..n] == Route(p, front)[..n]
    ensures DraftsOf(front + [s]) == DraftsOf(front)[s.uid := TaskOf(s)]
  {
    assert (front + [s])[..|front|] == front;
  }

  lemma LastFollows(e: Desk, p: nat, stops: seq<Stop>)
    requires p !in e.planners && stops != [] && GoodStops(e.money.books, stops) && AllUndrafted(e, stops)
    ensures GoodStops(e.money.books, stops[..|stops| - 1]) && AllUndrafted(e, stops[..|stops| - 1])
    ensures Follows(e, p, stops[..|stops| - 1], stops[|stops| - 1])
  {
    StopsSplit(e.money.books, stops);
  }

  /** A run whose bills nobody else has locked goes through. */
  lemma {:induction false} RouteRuns(d: Desk, run: seq<Act>, e: Desk, p: nat, stops: seq<Stop>)
    requires Leads(d, run, e) && p !in e.planners
    requires GoodStops(e.money.books, stops) && Clear(e, RouteBills(stops)) && AllUndrafted(e, stops)
    ensures Leads(d, run + Route(p, stops), With(e, p, AtEnd(stops)))
  {
    if stops == [] {
      RouteBegins(d, run, e, p);
    } else {
      var front, s := stops[..|stops| - 1], stops[|stops| - 1];
      LastFollows(e, p, stops);
      WholeStopClear(e, RouteBills(front), s.bills);
      RouteRuns(d, run, e, p, front);
      WholeStopAfterRoute(d, run, e, p, front, s);
      assert stops == front + [s];
    }
  }

  lemma WholeStopClear(e: Desk, front: seq<nat>, bills: seq<nat>)
    requires Clear(e, front + bills)
    ensures Clear(e, front) && Clear(e, bills)
  {
    assert (front + bills)[..|front| + |bills|] == front + bills && bills[..|bills|] == bills;
    ClearParts(e, front, bills, |bills|);
  }

  lemma WholeStopAfterRoute(d: Desk, run: seq<Act>, e: Desk, p: nat, front: seq<Stop>, s: Stop)
    requires Leads(d, run + Route(p, front), With(e, p, AtEnd(front)))
    requires Follows(e, p, front, s) && Clear(e, s.bills)
    ensures Leads(d, run + Route(p, front + [s]), With(e, p, AtEnd(front + [s])))
  {
    assert s.bills[..|s.bills|] == s.bills;
    StopAfterRoute(d, run, e, p, front, s, |s.bills| + 2);
    AlongWholeStop(front, s);
    WholeRoute(p, front, s);
    assert Route(p, front + [s])[..|Route(p, front + [s])|] == Route(p, front + [s]);
  }

  /** The planner holds just the first `i` bills of its run, and asks for the next. */
  ghost predicate Asks(x: Planner, stops: seq<Stop>, i: nat) {
    x.todo != [] && OnItsWay(x, RouteBills(stops), i) && x.drafts.Keys <= DraftsOf(stops).Keys
  }

  /** With just its first `i` bills free a run gets as far as asking for the next. */
  lemma {:induction false} RouteRunsToAsk(d: Desk, run: seq<Act>, e: Desk, p: nat, stops: seq<Stop>, i: nat) returns (n: nat, x: Planner)
    requires Leads(d, run, e) && p !in e.planners
    requires GoodStops(e.money.books, stops) && i < |RouteBills(stops)| && Clear(e, RouteBills(stops)[..i]) && AllUndrafted(e, stops)
    ensures n <= |Route(p, stops)| && Leads(d, run + Route(p, stops)[..n], With(e, p, x)) && Asks(x, stops, i)
  {
    var front, s := stops[..|stops| - 1], stops[|stops| - 1];
    LastFollows(e, p, stops);
    if i < |RouteBills(front)| {
      assert RouteBills(stops)[..i] == RouteBills(front)[..i];
      n, x := RouteRunsToAsk(d, run, e, p, front, i);
      WholeRoute(p, front, s);
      EarlierStopAsks(x, front, s, i);
    } else {
      n, x := LastStopAsks(d, run, e, p, front, s, i - |RouteBills(front)| + 1);
    }
    assert stops == front + [s];
  }

  lemma EarlierStopAsks(x: Planner, front: seq<Stop>, s: Stop, i: nat)
    requires Asks(x, front, i)
    ensures Asks(x, front + [s], i)
  {
    assert (front + [s])[..|front|] == front;
    FewerBillsOnItsWay(x, RouteBills(front), i, s.bills);
  }

  lemma FrontThenStop(d: Desk, run: seq<Act>, e: Desk, p: nat, front: seq<Stop>, s: Stop, k: nat)
    requires Leads(d, run, e) && GoodStops(e.money.books, front) && Follows(e, p, front, s) && AllUndrafted(e, front)
    requires k <= |s.bills| + 2 && Clear(e, RouteBills(front)) && Clear(e, s.bills[..Locked(s, k)])
    ensures |Route(p, front)| + k <= |Route(p, front + [s])|
    ensures Leads(d, run + Route(p, front + [s])[..|Route(p, front)| + k], With(e, p, AlongStop(AtEnd(front), s, k)))
  {
    RouteRuns(d, run, e, p, front);
    StopAfterRoute(d, run, e, p, front, s, k);
  }

  lemma BeforeAsking(e: Desk, front: seq<nat>, s: Stop, k: nat)
    requires 0 < k <= |s.bills| && Clear(e, (front + s.bills)[..|front| + k - 1])
    ensures Clear(e, front) && Clear(e, s.bills[..Locked(s, k)])
  {
    ClearParts(e, front, s.bills, k - 1);
  }

  lemma LastStopAsks(d: Desk, run: seq<Act>, e: Desk, p: nat, front: seq<Stop>, s: Stop, k: nat) returns (n: nat, x: Planner)
    requires Leads(d, run, e) && 0 < k <= |s.bills| && GoodStops(e.money.books, front) && Follows(e, p, front, s)
    requires Clear(e, (RouteBills(front) + s.bills)[..|RouteBills(front)| + k - 1]) && AllUndrafted(e, front)
    ensures n <= |Route(p, front + [s])| && Leads(d, run + Route(p, front + [s])[..n], With(e, p, x))
    ensures Asks(x, front + [s], |RouteBills(front)| + k - 1)
  {
    BeforeAsking(e, RouteBills(front), s, k);
    FrontThenStop(d, run, e, p, front, s, k);
    n, x := |Route(p, front)| + k, AlongStop(AtEnd(front), s, k);
    AsksAlong(front, s, k - 1);
  }

  lemma AsksAlong(front: seq<Stop>, s: Stop, i: nat)
    requires i < |s.bills|
    ensures Asks(AlongStop(AtEnd(front), s, i + 1), front + [s], |RouteBills(front)| + i)
  {
    assert (front + [s])[..|front|] == front;
    StopIsOnItsWay(front, s, i + 1);
  }

  // ---- exactly when two runs can block each other ----

  /** The run consists of the first acts of the two routes, in some order. */
  ghost predicate Interleaves(run: seq<Act>, p: nat, stops: seq<Stop>, q: nat, others: seq<Stop>) {
    && Own(run, p) <= Route(p, stops) && Own(run, q) <= Route(q, others)
    && forall i :: 0 <= i < |run| ==> IsOf(run[i], p) || IsOf(run[i], q)
  }

  lemma {:induction false} OwnOfOwn(acts: seq<Act>, p: nat, q: nat)
    requires p != q && forall i :: 0 <= i < |acts| ==> OnlyPlans(acts[i], p)
    ensures Own(acts, p) == acts && Own(acts, q) == []
  {
    if acts != [] {
      OwnOfOwn(acts[..|acts| - 1], p, q);
    }
  }

  lemma {:induction false} OwnSplits(a: seq<Act>, b: seq<Act>, p: nat)
    ensures Own(a + b, p) == Own(a, p) + Own(b, p)
  {
    if b == [] {
      assert a + b == a;
    } else {
      OwnSplits(a, b[..|b| - 1], p);
      assert (a + b)[..|a + b| - 1] == a + b[..|b| - 1];
    }
  }

  lemma PrefixIsOwn(p: nat, stops: seq<Stop>, m: nat, q: nat)
    requires p != q && m <= |Route(p, stops)|
    ensures Own(Route(p, stops)[..m], p) == Route(p, stops)[..m] && Own(Route(p, stops)[..m], q) == []
    ensures forall i :: 0 <= i < m ==> IsOf(Route(p, stops)[..m][i], p)
  {
    RoutesOnlyPlan(p, stops);
    OwnOfOwn(Route(p, stops)[..m], p, q);
  }

  lemma PrefixesInterleave(p: nat, stops: seq<Stop>, m: nat, q: nat, others: seq<Stop>, n: nat)
    requires p != q && m <= |Route(p, stops)| && n <= |Route(q, others)|
    ensures Interleaves(Route(p, stops)[..m] + Route(q, others)[..n], p, stops, q, others)
  {
    var a, b := Route(p, stops)[..m], Route(q, others)[..n];
    PrefixIsOwn(p, stops, m, q);
    PrefixIsOwn(q, others, n, p);
    OwnSplits(a, b, p);
    OwnSplits(a, b, q);
    assert a + [] == a && [] + b == b;
  }

  lemma BlockedPlannersWait(d: Desk, p: nat, x: Planner, q: nat, y: Planner, bills: seq<nat>, others: seq<nat>, i: nat, j: nat)
    requires p != q && Blocked(bills, others, i, j)
    requires x.todo != [] && OnItsWay(x, bills, i) && y.todo != [] && OnItsWay(y, others, j)
    ensures WaitCycle(DeskLocks(With(With(d, p, x), q, y)), [ThePlanner(p), ThePlanner(q)])
  {
    var e := With(With(d, p, x), q, y);
    var w, c := DeskLocks(e), [ThePlanner(p), ThePlanner(q)];
    assert c[0] in Parties(e) && c[1] in Parties(e);
    PlannerHolds(e, q, bills[i]);
    PlannerHolds(e, p, others[j]);
    assert WaitsFor(w, c[0], c[1]) && WaitsFor(w, c[1], c[0]);
  }

  lemma DraftedUids(stops: seq<Stop>, x: Planner, d: Desk, p: nat, others: seq<Stop>)
    requires d.planners == map[] && x.drafts.Keys <= DraftsOf(stops).Keys
    requires UidsDisjoint(stops, others)
    ensures AllUndrafted(With(d, p, x), others)
  {
    forall j | 0 <= j < |others|
      ensures others[j].uid !in x.drafts
    {
      if others[j].uid in DraftsOf(stops) {
        DraftsAreOfStops(stops, others[j].uid);
      }
    }
  }

  predicate UidsDisjoint(stops: seq<Stop>, others: seq<Stop>) {
    forall i, j :: 0 <= i < |stops| && 0 <= j < |others| ==> stops[i].uid != others[j].uid
  }

  /** Each of the planners waits for the other. */
  ghost predicate Stuck(e: Desk, p: nat, q: nat) {
    WaitCycle(DeskLocks(e), [ThePlanner(p), ThePlanner(q)])
  }

  /** Some interleaving of the two routes ends with each planner waiting for the other. */
  ghost predicate RunsCanDeadlock(d: Desk, p: nat, stops: seq<Stop>, q: nat, others: seq<Stop>) {
    exists run :: Feasible(d, run) && Interleaves(run, p, stops, q, others) && Stuck(Ended(d, run), p, q)
  }

  lemma SecondIsClear(d: Desk, p: nat, x: Planner, bills: seq<nat>, i: nat, theirs: seq<nat>, j: nat)
    requires Quiet(d) && OnItsWay(x, bills, i) && Blocked(bills, theirs, i, j)
    ensures Clear(With(d, p, x), theirs[..j])
  {
    forall k | 0 <= k < j
      ensures theirs[..j][k] !in x.holds
    {
      assert forall l :: 0 <= l < i ==> bills[..i][l] != theirs[..j][k];
    }
  }

  lemma BothGetStuck(d: Desk, p: nat, stops: seq<Stop>, q: nat, others: seq<Stop>, i: nat, j: nat)
    returns (run: seq<Act>, x: Planner, y: Planner)
    requires Quiet(d) && p != q
    requires GoodStops(d.money.books, stops) && GoodStops(d.money.books, others)
    requires UidsDisjoint(stops, others)
    requires Blocked(RouteBills(stops), RouteBills(others), i, j)
    ensures Interleaves(run, p, stops, q, others) && Leads(d, run, With(With(d, p, x), q, y))
    ensures x.todo != [] && OnItsWay(x, RouteBills(stops), i) && y.todo != [] && OnItsWay(y, RouteBills(others), j)
  {
    assert Leads(d, [], d);
    var m, n;
    m, x := RouteRunsToAsk(d, [], d, p, stops, i);
    assert [] + Route(p, stops)[..m] == Route(p, stops)[..m];
    SecondIsClear(d, p, x, RouteBills(stops), i, RouteBills(others), j);
    DraftedUids(stops, x, d, p, others);
    n, y := RouteRunsToAsk(d, Route(p, stops)[..m], With(d, p, x), q, others, j);
    run := Route(p, stops)[..m] + Route(q, others)[..n];
    PrefixesInterleave(p, stops, m, q, others, n);
  }

  lemma CrossedRunsBlock(d: Desk, p: nat, stops: seq<Stop>, q: nat, others: seq<Stop>)
    requires Quiet(d) && p != q
    requires GoodStops(d.money.books, stops) && GoodStops(d.money.books, others)
    requires UidsDisjoint(stops, others)
    requires Crossed(RouteBills(stops), RouteBills(others))
    ensures RunsCanDeadlock(d, p, stops, q, others)
  {
    var i, j := CrossedCanBlock(RouteBills(stops), RouteBills(others));
    var run, x, y := BothGetStuck(d, p, stops, q, others, i, j);
    BlockedPlannersWait(d, p, x, q, y, RouteBills(stops), RouteBills(others), i, j);
  }

  /** Two runs that would each go through can end up waiting for each other if and only if their
      stops, strung together, come to the bills they share at different ones first. */
  lemma RunsDeadlockIff(d: Desk, p: nat, stops: seq<Stop>, q: nat, others: seq<Stop>)
    requires DeskOk(d) && Quiet(d) && p != q
    requires GoodStops(d.money.books, stops) && GoodStops(d.money.books, others)
    requires UidsDisjoint(stops, others)
    ensures RunsCanDeadlock(d, p, stops, q, others) <==> Crossed(RouteBills(stops), RouteBills(others))
  {
    if RunsCanDeadlock(d, p, stops, q, others) {
      var run :| Feasible(d, run) && Interleaves(run, p, stops, q, others) && Stuck(Ended(d, run), p, q);
      WaitingRunsAreCrossed(d, run, p, stops, q, others);
    }
    if Crossed(RouteBills(stops), RouteBills(others)) {
      CrossedRunsBlock(d, p, stops, q, others);
    }
  }

  /** Alone on the desk such a run goes through to its end. */
  lemma GoodRunsGoThrough(d: Desk, p: nat, stops: seq<Stop>)
    requires Quiet(d) && GoodStops(d.money.books, stops)
    ensures Feasible(d, Route(p, stops)) && Ended(d, Route(p, stops)) == With(d, p, AtEnd(stops))
  {
    assert Leads(d, [], d);
    RouteRuns(d, [], d, p, stops);
    assert [] + Route(p, stops) == Route(p, stops);
  }

  /** Two stops with one bill each, visited in opposite orders by two runs, are enough. */
  lemma StopsCanDeadlock(d: Desk, p: nat, q: nat, s1: Stop, s2: Stop, t1: Stop, t2: Stop)
    requires DeskOk(d) && Quiet(d) && p != q
    requires |s1.bills| == |s2.bills| == 1 && s1.bills != s2.bills && t1.bills == s2.bills && t2.bills == s1.bills
    requires GoodStop(d.money.books, s1) && GoodStop(d.money.books, s2) && GoodStop(d.money.books, t1) && GoodStop(d.money.books, t2)
    requires Distinct([s1.uid, s2.uid, t1.uid, t2.uid])
    ensures RunsCanDeadlock(d, p, [s1, s2], q, [t1, t2])
  {
    UidsApart(s1, s2, t1, t2);
    TwoGoodStops(d.money.books, s1, s2);
    TwoGoodStops(d.money.books, t1, t2);
    OppositeIsCrossed(s1.bills[0], s2.bills[0]);
    RunsDeadlockIff(d, p, [s1, s2], q, [t1, t2]);
  }

  lemma UidsApart(s1: Stop, s2: Stop, t1: Stop, t2: Stop)
    requires Distinct([s1.uid, s2.uid, t1.uid, t2.uid])
    ensures s1.uid != s2.uid && t1.uid != t2.uid
    ensures UidsDisjoint([s1, s2], [t1, t2])
  {
    var u := [s1.uid, s2.uid, t1.uid, t2.uid];
    assert u[0] == s1.uid && u[1] == s2.uid && u[2] == t1.uid && u[3] == t2.uid;
  }

  lemma OppositeIsCrossed(a: nat, b: nat)
    requires a != b
    ensures Crossed([a, b], [b, a])
  {
    assert [b, a][1] == a && [a, b][1] == b;
    assert FirstShared([a, b], [b, a]) == 0 && FirstShared([b, a], [a, b]) == 0;
  }

  lemma TwoGoodStops(books: Books, s: Stop, t: Stop)
    requires GoodStop(books, s) && GoodStop(books, t) && s.uid != t.uid
    requires |s.bills| == |t.bills| == 1 && s.bills != t.bills
    ensures GoodStops(books, [s, t]) && RouteBills([s, t]) == [s.bills[0], t.bills[0]]
  {
    assert [s, t][..1] == [s] && [s][..0] == [];
    assert RouteBills([s]) == [] + s.bills;
    assert RouteBills([s, t]) == [s.bills[0], t.bills[0]];
  }
}
