/** What the graph of waits means: nothing but the locks of others keeps a party from its next lock. */
module DeskWaits {
  import opened Wrappers
  import opened CollectionModel
  import opened CollectionRuns
  import opened Planning
  import opened LockOrder
  import opened PlanningLocks
  import opened PayerLocks

  /** The step with which the party takes the lock that it asks for. */
  predicate IsNextStep(d: Desk, x: Party, a: Act)
    requires IsParty(d, x)
  {
    match x
    case ThePlanner(p) => a == Lock(p)
    case TheApproval(uid) => a == if uid !in d.grips && d.money.open[uid].next == 0 then Grip(uid) else Money(Record(uid))
    case TheTill(t) => a == Settle(t)
  }

  /** But for locks the party could go on: the bill is there, the payment is in order. */
  predicate Ready(d: Desk, x: Party)
    requires IsParty(d, x) && AsksOne(d, x)
  {
    match x
    case ThePlanner(p) => d.planners[p].todo[0] in d.money.books.bills
    case TheApproval(uid) =>
      if uid !in d.grips && d.money.open[uid].next == 0 then d.money.open[uid].wanted[0].bill in d.money.books.bills
      else NextPayment(d.money, uid).Ok?
    case TheTill(t) =>
      && Enabled(d.money, d.tills[t].work)
      && (d.tills[t].work.Pay? || d.tills[t].work.Edit?)
  }

  ghost predicate WaitsForNobody(d: Desk, x: Party) {
    forall y :: !WaitsFor(DeskLocks(d), x, y)
  }

  lemma WaitsForHolders(d: Desk, x: Party, lock: int)
    requires IsParty(d, x) && AsksOne(d, x) && AskOf(d, x) == lock
    ensures WaitsForNobody(d, x) <==> forall y :: Holder(d, y, lock) ==> y == x
  {
    forall y
      ensures WaitsFor(DeskLocks(d), x, y) <==> y != x && Holder(d, y, lock)
    {
      assert x in Parties(d) && (IsParty(d, y) <==> y in Parties(d));
    }
  }

  /** A bill is with nobody but `x`, as a planner, an approval, or neither. */
  lemma NobodysIsUnlocked(d: Desk, bill: nat, x: Party)
    requires GripsOk(d) && forall y :: Holder(d, y, bill) ==> y == x
    ensures Unlocked(d, bill, if x.ThePlanner? then Some(x.p) else None)
    ensures Free(d.money, bill, if x.TheApproval? then Some(x.uid) else None)
  {
    forall q | q in d.planners && bill in d.planners[q].holds
      ensures ThePlanner(q) == x
    {
      assert Holder(d, ThePlanner(q), bill);
    }
    forall u | u in d.money.open && Holds(d.money.open[u], bill)
      ensures TheApproval(u) == x
    {
      var f := d.money.open[u];
      var i :| 0 <= i < |f.pending| && f.pending[i].bill == bill;
      assert f.pending[i].bill as int in PaidBills(f);
      assert Holder(d, TheApproval(u), bill);
    }
  }

  lemma NobodysIsLoose(d: Desk, bill: nat, x: Party)
    requires GripsOk(d) && IsParty(d, x) && !x.TheTill? && (forall y :: Holder(d, y, bill) ==> y == x)
    requires x.TheApproval? ==> !Gripping(d, x.uid)
    ensures Loose(d, bill)
  {
    forall u | u in d.grips && u in d.money.open && d.money.open[u].wanted != []
      ensures d.money.open[u].wanted[0].bill != bill
    {
      assert Gripping(d, u);
      assert d.money.open[u].wanted[0].bill == bill ==> Holder(d, TheApproval(u), bill);
    }
    forall t | t in d.tills
      ensures d.tills[t].bill != bill
    {
      assert d.tills[t].bill == bill ==> Holder(d, TheTill(t), bill);
    }
  }

  lemma NobodysIsClockFree(d: Desk, x: Party)
    requires forall y :: Holder(d, y, CLOCK) ==> y == x
    ensures ClockFree(d, if x.TheApproval? then Some(x.uid) else None)
  {
    forall u | u in d.money.open && d.money.open[u].pending != []
      ensures TheApproval(u) == x
    {
      assert Holder(d, TheApproval(u), CLOCK);
    }
  }

  lemma PlannersWait(d: Desk, p: nat)
    requires GripsOk(d) && p in d.planners && d.planners[p].todo != []
    ensures Can(d, Lock(p)) <==> Ready(d, ThePlanner(p)) && WaitsForNobody(d, ThePlanner(p))
  {
    var x, bill := ThePlanner(p), d.planners[p].todo[0];
    WaitsForHolders(d, x, bill);
    if Can(d, Lock(p)) {
      UnlockedIsNobodys(d, bill, Some(p), None, x);
    }
    if WaitsForNobody(d, x) {
      NobodysIsUnlocked(d, bill, x);
      NobodysIsLoose(d, bill, x);
    }
  }

  lemma TillsWait(d: Desk, t: nat)
    requires t in d.tills
    ensures Can(d, Settle(t)) <==> Ready(d, TheTill(t)) && WaitsForNobody(d, TheTill(t))
  {
    WaitsForHolders(d, TheTill(t), CLOCK);
    if Can(d, Settle(t)) {
      ClockIsNobodys(d, None, TheTill(t));
    }
    if WaitsForNobody(d, TheTill(t)) {
      NobodysIsClockFree(d, TheTill(t));
    }
  }

  lemma GrippersWait(d: Desk, u: string)
    requires GripsOk(d) && u in d.money.open && u !in d.grips && d.money.open[u].next == 0 && d.money.open[u].wanted != []
    requires d.money.open[u].pending == []
    ensures Can(d, Grip(u)) <==> Ready(d, TheApproval(u)) && WaitsForNobody(d, TheApproval(u))
  {
    var x, bill := TheApproval(u), d.money.open[u].wanted[0].bill;
    WaitsForHolders(d, x, bill);
    if Can(d, Grip(u)) {
      UnlockedIsNobodys(d, bill, None, None, x);
    }
    if WaitsForNobody(d, x) {
      NobodysIsUnlocked(d, bill, x);
      NobodysIsLoose(d, bill, x);
    }
  }

  lemma FirstPaymentsWait(d: Desk, u: string)
    requires LocksExclusive(d) && Gripping(d, u)
    ensures Can(d, Money(Record(u))) <==> Ready(d, TheApproval(u)) && WaitsForNobody(d, TheApproval(u))
  {
    var x, bill := TheApproval(u), d.money.open[u].wanted[0].bill;
    WaitsForHolders(d, x, CLOCK);
    if Can(d, Money(Record(u))) {
      ClockIsNobodys(d, Some(u), x);
    }
    if WaitsForNobody(d, x) {
      NobodysIsClockFree(d, x);
      assert Holder(d, x, bill);
      forall v | v in d.money.open && Holds(d.money.open[v], bill)
        ensures v == u
      {
        var f := d.money.open[v];
        var i :| 0 <= i < |f.pending| && f.pending[i].bill == bill;
        assert f.pending[i].bill as int in PaidBills(f);
        assert Holder(d, TheApproval(v), bill);
      }
    }
  }

  lemma LaterPaymentsWait(d: Desk, u: string)
    requires GripsOk(d) && u in d.money.open && 0 < d.money.open[u].next < |d.money.open[u].wanted|
    ensures Can(d, Money(Record(u))) <==> Ready(d, TheApproval(u)) && WaitsForNobody(d, TheApproval(u))
  {
    var x, bill := TheApproval(u), d.money.open[u].wanted[d.money.open[u].next].bill;
    WaitsForHolders(d, x, bill);
    if Can(d, Money(Record(u))) {
      UnlockedIsNobodys(d, bill, None, Some(u), x);
    }
    if WaitsForNobody(d, x) {
      NobodysIsUnlocked(d, bill, x);
      NobodysIsLoose(d, bill, x);
    }
  }

  lemma ApprovalsWait(d: Desk, u: string, a: Act)
    requires LocksExclusive(d) && GripsOk(d) && u in d.money.open && AsksOne(d, TheApproval(u)) && IsNextStep(d, TheApproval(u), a)
    requires d.money.open[u].next == 0 ==> d.money.open[u].pending == []
    ensures Can(d, a) <==> Ready(d, TheApproval(u)) && WaitsForNobody(d, TheApproval(u))
  {
    if d.money.open[u].next > 0 {
      LaterPaymentsWait(d, u);
    } else if u in d.grips {
      FirstPaymentsWait(d, u);
    } else {
      GrippersWait(d, u);
    }
  }

  lemma NothingPaidAtFirst(d: Desk, u: string)
    requires DeskOk(d) && u in d.money.open && d.money.open[u].next == 0
    ensures d.money.open[u].pending == []
  {
    assert FlightOk(d.money.books, u, d.money.open[u]);
  }

  lemma WaitsHere(e: Desk, x: Party, a: Act)
    requires LocksExclusive(e) && GripsOk(e) && IsParty(e, x) && AsksOne(e, x) && IsNextStep(e, x, a)
    requires x.TheApproval? && e.money.open[x.uid].next == 0 ==> e.money.open[x.uid].pending == []
    ensures Can(e, a) <==> Ready(e, x) && WaitsForNobody(e, x)
  {
    match x
    case ThePlanner(p) => PlannersWait(e, p);
    case TheTill(t) => TillsWait(e, t);
    case TheApproval(u) => ApprovalsWait(e, u, a);
  }

  /** In every run, whoever is under way can take its next lock exactly when it waits for nobody, and what it is
      about to do is in order: the graph of waits is neither too large nor too small. */
  lemma WaitsAreExact(d: Desk, run: seq<Act>, x: Party, a: Act)
    requires DeskOk(d) && Quiet(d) && Feasible(d, run)
    requires var e := Ended(d, run); IsParty(e, x) && AsksOne(e, x) && IsNextStep(e, x, a)
    ensures var e := Ended(d, run); Can(e, a) <==> Ready(e, x) && WaitsForNobody(e, x)
  {
    RunKeepsDesk(d, run);
    LocksAreExclusive(d, run);
    var e := Ended(d, run);
    if x.TheApproval? && e.money.open[x.uid].next == 0 {
      NothingPaidAtFirst(e, x.uid);
    }
    WaitsHere(e, x, a);
  }

  /** A new bill needs no lock but the clock, and so nobody who has it. */
  lemma NewBillsTakeTheClock(d: Desk, bill: nat, now: Bill)
    ensures Can(d, Money(Edit(bill, now))) <==>
            Enabled(d.money, Edit(bill, now)) && bill !in d.money.books.bills && forall y :: !Holder(d, y, CLOCK)
  {
    if forall y :: !Holder(d, y, CLOCK) {
      forall u | u in d.money.open
        ensures d.money.open[u].pending == []
      {
        assert !Holder(d, TheApproval(u), CLOCK);
      }
    }
  }

  /** Whoever is under way can give up at any time, waiting or not; nobody else gains or loses a lock by that. */
  lemma AnyoneCanGiveUp(d: Desk, x: Party, y: Party)
    requires IsParty(d, x)
    ensures var a := match x
              case ThePlanner(p) => GiveUp(p)
              case TheApproval(uid) => Money(Abort(uid))
              case TheTill(t) => Leave(t);
            && Can(d, a) && !IsParty(Next(d, a), x)
            && (y != x ==> (IsParty(Next(d, a), y) <==> IsParty(d, y)) && (IsParty(d, y) ==> HoldsOf(Next(d, a), y) == HoldsOf(d, y)))
  {
  }
}
