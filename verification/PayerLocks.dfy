/** No lock of a desk is ever held twice; and what it takes for two payers, approvals or receipts and
    edits, to wait for each other. */
module PayerLocks {
  import opened Wrappers
  import opened CollectionKeys
  import opened CollectionModel
  import opened CollectionRuns
  import opened CollectionSafety
  import opened CollectionTheorems
  import opened Planning
  import opened LockOrder
  import opened PlanningLocks
  import opened CrossedLocks

  // ---- nobody holds a lock of another ----

  predicate Holder(d: Desk, x: Party, lock: int) {
    IsParty(d, x) && lock in HoldsOf(d, x)
  }

  ghost predicate LocksExclusive(d: Desk) {
    forall x, y, lock :: Holder(d, x, lock) && Holder(d, y, lock) ==> x == y
  }

  /** Between the two desks at most `x` has taken a lock, and nobody else had it. */
  ghost predicate OneTaken(d: Desk, d': Desk, x: Party, lock: int) {
    && (forall y, l :: Holder(d', y, l) ==> Holder(d, y, l) || (y == x && l == lock))
    && forall y :: Holder(d, y, lock) ==> y == x
  }

  ghost predicate OnlyReleases(d: Desk, d': Desk) {
    forall y, l :: Holder(d', y, l) ==> Holder(d, y, l)
  }

  lemma UnlockedIsNobodys(d: Desk, bill: nat, p: Option<nat>, u: Option<string>, x: Party)
    requires Unlocked(d, bill, p) && Free(d.money, bill, u) && Loose(d, bill)
    requires (p.Some? ==> x == ThePlanner(p.value)) && (u.Some? ==> x == TheApproval(u.value))
    ensures forall y :: Holder(d, y, bill) ==> y == x
  {
    forall y | Holder(d, y, bill)
      ensures y == x
    {
      match y
      case ThePlanner(q) => assert bill in d.planners[q].holds;
      case TheApproval(uid) =>
        var f := d.money.open[uid];
        if i :| 0 <= i < |f.pending| && f.pending[i].bill == bill {
          assert Holds(f, bill);
        }
      case TheTill(t) =>
    }
  }

  lemma ClockIsNobodys(d: Desk, u: Option<string>, x: Party)
    requires ClockFree(d, u) && (u.Some? ==> x == TheApproval(u.value))
    ensures forall y :: Holder(d, y, CLOCK) ==> y == x
  {
  }

  /** Who has gripped a bill is under way and has paid nothing. */
  ghost predicate GripsOk(d: Desk) {
    forall u :: u in d.grips ==> u in d.money.open && d.money.open[u].next == 0
  }

  lemma PlannerTakes(d: Desk, p: nat)
    requires Can(d, Lock(p))
    ensures OneTaken(d, Next(d, Lock(p)), ThePlanner(p), d.planners[p].todo[0])
  {
    UnlockedIsNobodys(d, d.planners[p].todo[0], Some(p), None, ThePlanner(p));
  }

  lemma ApprovalGrips(d: Desk, uid: string)
    requires Can(d, Grip(uid))
    ensures OneTaken(d, Next(d, Grip(uid)), TheApproval(uid), d.money.open[uid].wanted[0].bill)
  {
    UnlockedIsNobodys(d, d.money.open[uid].wanted[0].bill, None, None, TheApproval(uid));
  }

  lemma TillTakes(d: Desk, t: nat, work: Action)
    requires Can(d, Take(t, work))
    ensures OneTaken(d, Next(d, Take(t, work)), TheTill(t), BillOf(work))
  {
    UnlockedIsNobodys(d, BillOf(work), None, None, TheTill(t));
  }

  lemma PaidOneMore(uid: string, f: InFlight)
    requires f.next < |f.wanted|
    ensures PaidBills(Extended(uid, f)) == PaidBills(f) + {f.wanted[f.next].bill as int}
    ensures Extended(uid, f).pending != [] && Extended(uid, f).next == f.next + 1
  {
    var rs := Extended(uid, f).pending;
    assert rs[|f.pending|].bill == f.wanted[f.next].bill;
    assert forall i :: 0 <= i < |f.pending| ==> rs[i] == f.pending[i];
  }

  /** What a payment adds to the locks of an approval. */
  function NewLock(d: Desk, uid: string): int
    requires uid in d.money.open && d.money.open[uid].next < |d.money.open[uid].wanted|
  {
    var f := d.money.open[uid];
    if f.next == 0 then CLOCK else f.wanted[f.next].bill
  }

  lemma PayingTakes(d: Desk, d': Desk, uid: string)
    requires uid in d.money.open && d.money.open[uid].next < |d.money.open[uid].wanted|
    requires var f := d.money.open[uid]; (f.next == 0 ==> Gripping(d, uid)) && (f.next > 0 ==> f.pending != [])
    requires d' == d.(money := d'.money, grips := d.grips - {uid})
    requires d'.money.open == d.money.open[uid := Extended(uid, d.money.open[uid])]
    requires forall y :: Holder(d, y, NewLock(d, uid)) ==> y == TheApproval(uid)
    ensures OneTaken(d, d', TheApproval(uid), NewLock(d, uid))
  {
    PaidOneMore(uid, d.money.open[uid]);
    assert ApprovalHolds(d', uid) <= ApprovalHolds(d, uid) + {NewLock(d, uid)};
    forall y | y != TheApproval(uid) && IsParty(d', y)
      ensures IsParty(d, y) && HoldsOf(d', y) == HoldsOf(d, y)
    {
      if y.TheApproval? {
        assert Gripping(d', y.uid) == Gripping(d, y.uid);
      }
    }
  }

  lemma NewLockIsNobodys(d: Desk, uid: string)
    requires Can(d, Money(Record(uid)))
    ensures forall y :: Holder(d, y, NewLock(d, uid)) ==> y == TheApproval(uid)
  {
    var f := d.money.open[uid];
    if f.next == 0 {
      ClockIsNobodys(d, Some(uid), TheApproval(uid));
    } else {
      UnlockedIsNobodys(d, f.wanted[f.next].bill, None, Some(uid), TheApproval(uid));
    }
  }

  lemma FlightHasPaid(books: Books, uid: string, f: InFlight)
    requires FlightOk(books, uid, f)
    ensures f.next > 0 <==> f.pending != []
  {
  }

  lemma PaymentStep(d: Desk, uid: string)
    requires Inv(d.money) && Can(d, Money(Record(uid)))
    ensures Next(d, Money(Record(uid))) ==
            d.(money := d.money.(open := d.money.open[uid := Extended(uid, d.money.open[uid])]), grips := d.grips - {uid})
    ensures var f := d.money.open[uid]; f.next < |f.wanted| && (f.next > 0 ==> f.pending != [])
  {
    RecordAppends(d.money, uid);
    FlightHasPaid(d.money.books, uid, d.money.open[uid]);
  }

  lemma ApprovalPays(d: Desk, uid: string)
    requires Inv(d.money) && Can(d, Money(Record(uid)))
    ensures OneTaken(d, Next(d, Money(Record(uid))), TheApproval(uid), NewLock(d, uid))
  {
    PaymentStep(d, uid);
    NewLockIsNobodys(d, uid);
    PayingTakes(d, Next(d, Money(Record(uid))), uid);
  }

  lemma OtherMoneyReleases(d: Desk, m: Action)
    requires GripsOk(d) && Can(d, Money(m)) && !m.Record?
    ensures OnlyReleases(d, Next(d, Money(m)))
  {
    if m.Open? {
      OpenAddsAFlight(d.money, m.uid, m.allocations, m.expected);
    } else {
      OtherStepsKeepFlights(d.money, m);
    }
  }

  lemma SettlingReleases(d: Desk, t: nat)
    requires Can(d, Settle(t))
    ensures OnlyReleases(d, Next(d, Settle(t)))
  {
    OtherStepsKeepFlights(d.money, d.tills[t].work);
  }

  lemma OthersRelease(d: Desk, a: Act)
    requires Can(d, a) && !a.Money? && !a.Settle? && !a.Lock? && !a.Grip? && !a.Take?
    ensures OnlyReleases(d, Next(d, a))
  {
  }

  lemma MoneyKeepsExclusive(d: Desk, m: Action)
    requires Inv(d.money) && GripsOk(d) && LocksExclusive(d) && Can(d, Money(m))
    ensures LocksExclusive(Next(d, Money(m)))
  {
    if m.Record? {
      ApprovalPays(d, m.uid);
      TakingIsExclusive(d, Next(d, Money(m)), TheApproval(m.uid), NewLock(d, m.uid));
    } else {
      OtherMoneyReleases(d, m);
      ReleasingIsExclusive(d, Next(d, Money(m)));
    }
  }

  lemma TakingIsExclusive(d: Desk, d': Desk, x: Party, lock: int)
    requires LocksExclusive(d) && OneTaken(d, d', x, lock)
    ensures LocksExclusive(d')
  {
  }

  lemma ReleasingIsExclusive(d: Desk, d': Desk)
    requires LocksExclusive(d) && OnlyReleases(d, d')
    ensures LocksExclusive(d')
  {
  }

  lemma LockKeepsExclusive(d: Desk, p: nat)
    requires LocksExclusive(d) && Can(d, Lock(p))
    ensures LocksExclusive(Next(d, Lock(p)))
  {
    PlannerTakes(d, p);
    TakingIsExclusive(d, Next(d, Lock(p)), ThePlanner(p), d.planners[p].todo[0]);
  }

  lemma GripKeepsExclusive(d: Desk, uid: string)
    requires LocksExclusive(d) && Can(d, Grip(uid))
    ensures LocksExclusive(Next(d, Grip(uid)))
  {
    ApprovalGrips(d, uid);
    TakingIsExclusive(d, Next(d, Grip(uid)), TheApproval(uid), d.money.open[uid].wanted[0].bill);
  }

  lemma TakeKeepsExclusive(d: Desk, t: nat, work: Action)
    requires LocksExclusive(d) && Can(d, Take(t, work))
    ensures LocksExclusive(Next(d, Take(t, work)))
  {
    TillTakes(d, t, work);
    TakingIsExclusive(d, Next(d, Take(t, work)), TheTill(t), BillOf(work));
  }

  lemma OthersKeepExclusive(d: Desk, a: Act)
    requires LocksExclusive(d) && Can(d, a) && !a.Money? && !a.Lock? && !a.Grip? && !a.Take?
    ensures LocksExclusive(Next(d, a))
  {
    if a.Settle? {
      SettlingReleases(d, a.t);
    } else {
      OthersRelease(d, a);
    }
    ReleasingIsExclusive(d, Next(d, a));
  }

  lemma ActKeepsExclusive(d: Desk, a: Act)
    requires Inv(d.money) && GripsOk(d) && LocksExclusive(d) && Can(d, a)
    ensures LocksExclusive(Next(d, a))
  {
    match a
    case Money(m) => MoneyKeepsExclusive(d, m);
    case Lock(p) => LockKeepsExclusive(d, p);
    case Grip(uid) => GripKeepsExclusive(d, uid);
    case Take(t, work) => TakeKeepsExclusive(d, t, work);
    case _ => OthersKeepExclusive(d, a);
  }

  lemma MoneyKeepsGrips(d: Desk, m: Action)
    requires Inv(d.money) && GripsOk(d) && Can(d, Money(m))
    ensures GripsOk(Next(d, Money(m)))
  {
    if m.Open? {
      OpenAddsAFlight(d.money, m.uid, m.allocations, m.expected);
    } else if m.Record? {
      PaymentStep(d, m.uid);
    } else {
      OtherStepsKeepFlights(d.money, m);
    }
  }

  lemma SettlingKeepsGrips(d: Desk, t: nat)
    requires GripsOk(d) && Can(d, Settle(t))
    ensures GripsOk(Next(d, Settle(t)))
  {
    OtherStepsKeepFlights(d.money, d.tills[t].work);
  }

  lemma OthersKeepGrips(d: Desk, a: Act)
    requires GripsOk(d) && Can(d, a) && !a.Money? && !a.Settle?
    ensures GripsOk(Next(d, a))
  {
  }

  lemma ActKeepsGrips(d: Desk, a: Act)
    requires Inv(d.money) && GripsOk(d) && Can(d, a)
    ensures GripsOk(Next(d, a))
  {
    match a
    case Money(m) => MoneyKeepsGrips(d, m);
    case Settle(t) => SettlingKeepsGrips(d, t);
    case _ => OthersKeepGrips(d, a);
  }

  /** In every run no lock, on a bill or on the clock, is ever held by two parties. */
  lemma {:induction false} LocksAreExclusive(d: Desk, run: seq<Act>)
    requires DeskOk(d) && Quiet(d) && Feasible(d, run)
    ensures GripsOk(Ended(d, run)) && LocksExclusive(Ended(d, run))
    decreases |run|
  {
    if run != [] {
      var front := run[..|run| - 1];
      LocksAreExclusive(d, front);
      RunKeepsDesk(d, front);
      ActKeepsGrips(Ended(d, front), run[|run| - 1]);
      ActKeepsExclusive(Ended(d, front), run[|run| - 1]);
    }
  }

  // ---- payers that wait for each other ----

  /** The locks that paying these bills takes: the first bill, the clock, the others. */
  function LockList(bills: seq<int>): seq<int> {
    if bills == [] then [] else [bills[0], CLOCK] + bills[1..]
  }

  function Bills(ps: seq<Portion>): (bills: seq<int>)
    ensures CLOCK !in bills
  {
    seq(|ps|, i requires 0 <= i < |ps| => ps[i].bill as int)
  }

  /** The bills a payer locks, in turn. */
  function BillsOf(d: Desk, x: Party): (bills: seq<int>)
    requires IsParty(d, x) && !x.ThePlanner?
    ensures CLOCK !in bills
  {
    if x.TheApproval? then Bills(d.money.open[x.uid].wanted) else [d.tills[x.t].bill as int]
  }

  /** How many of its locks a payer has. */
  function Position(d: Desk, x: Party): nat
    requires IsParty(d, x) && !x.ThePlanner?
  {
    if x.TheTill? then 1
    else if d.money.open[x.uid].next > 0 then d.money.open[x.uid].next + 1
    else if Gripping(d, x.uid) then 1 else 0
  }

  lemma ListedLocks(bills: seq<int>, k: nat, lock: int)
    requires 0 < k <= |bills|
    ensures |LockList(bills)| == |bills| + 1 && (k < |bills| ==> LockList(bills)[k + 1] == bills[k])
    ensures lock in LockList(bills)[..k + 1] <==> lock == CLOCK || lock in bills[..k]
  {
    var list, first := LockList(bills)[..k + 1], bills[..k];
    assert list[0] == bills[0] && list[1] == CLOCK;
    if lock in list {
      var i :| 0 <= i < |list| && list[i] == lock;
      assert i != 1 ==> lock == first[if i == 0 then 0 else i - 1];
    }
    if lock in first {
      var i :| 0 <= i < k && first[i] == lock;
      assert lock == list[if i == 0 then 0 else i + 1];
    }
  }

  lemma PaidAreFirst(books: Books, uid: string, f: InFlight, lock: int)
    requires FlightOk(books, uid, f)
    ensures lock in PaidBills(f) <==> lock in Bills(f.wanted)[..f.next]
  {
    var paid := Bills(f.wanted)[..f.next];
    assert |f.pending| == |paid| && forall i :: 0 <= i < |paid| ==> f.pending[i].bill == paid[i];
  }

  /** A payer holds the first locks of its list. */
  lemma PayerHolds(d: Desk, x: Party, lock: int)
    requires FlightsOk(d.money) && IsParty(d, x) && !x.ThePlanner?
    ensures Position(d, x) <= |LockList(BillsOf(d, x))|
    ensures Holder(d, x, lock) <==> lock in LockList(BillsOf(d, x))[..Position(d, x)]
  {
    if x.TheApproval? {
      var f := d.money.open[x.uid];
      assert FlightOk(d.money.books, x.uid, f);
      FlightHasPaid(d.money.books, x.uid, f);
      PaidAreFirst(d.money.books, x.uid, f, lock);
      if f.next > 0 {
        ListedLocks(Bills(f.wanted), f.next, lock);
      }
    }
  }

  lemma NextOfApproval(d: Desk, uid: string)
    requires FlightsOk(d.money) && uid in d.money.open && d.money.open[uid].next < |d.money.open[uid].wanted|
    ensures var x := TheApproval(uid);
            Position(d, x) < |LockList(BillsOf(d, x))| && LockList(BillsOf(d, x))[Position(d, x)] == AskOf(d, x)
  {
    var f := d.money.open[uid];
    if f.next > 0 {
      ListedLocks(Bills(f.wanted), f.next, CLOCK);
    }
  }

  lemma ApprovalAsks(d: Desk, uid: string, y: Party)
    requires FlightsOk(d.money) && WaitsFor(DeskLocks(d), TheApproval(uid), y)
    ensures var x := TheApproval(uid);
            && IsParty(d, x) && IsParty(d, y) && x != y && Position(d, x) < |LockList(BillsOf(d, x))|
            && Holder(d, y, LockList(BillsOf(d, x))[Position(d, x)])
  {
    NextOfApproval(d, uid);
  }

  /** ... and asks for the next. */
  lemma PayerAsks(d: Desk, x: Party, y: Party)
    requires FlightsOk(d.money) && !x.ThePlanner? && WaitsFor(DeskLocks(d), x, y)
    ensures IsParty(d, x) && IsParty(d, y) && x != y && Position(d, x) < |LockList(BillsOf(d, x))|
    ensures Holder(d, y, LockList(BillsOf(d, x))[Position(d, x)])
  {
    if x.TheApproval? {
      ApprovalAsks(d, x.uid, y);
    }
  }

  /** Wherever two payers wait for each other, whatever else was going on, their lock lists are
      crossed. */
  lemma WaitingPayersAreCrossed(d: Desk, run: seq<Act>, x: Party, y: Party)
    requires DeskOk(d) && Quiet(d) && Feasible(d, run) && !x.ThePlanner? && !y.ThePlanner?
    requires WaitCycle(DeskLocks(Ended(d, run)), [x, y])
    ensures var e := Ended(d, run);
            IsParty(e, x) && IsParty(e, y) && Crossed(LockList(BillsOf(e, x)), LockList(BillsOf(e, y)))
  {
    var e, c := Ended(d, run), [x, y];
    RunKeepsDesk(d, run);
    LocksAreExclusive(d, run);
    assert WaitsFor(DeskLocks(e), c[0], c[1]) && WaitsFor(DeskLocks(e), c[1], c[0]);
    PayerAsks(e, x, y);
    PayerAsks(e, y, x);
    AskersAreCrossed(e, x, y);
  }

  lemma AskersAreCrossed(e: Desk, x: Party, y: Party)
    requires FlightsOk(e.money) && LocksExclusive(e) && IsParty(e, x) && IsParty(e, y) && x != y
    requires !x.ThePlanner? && !y.ThePlanner?
    requires Position(e, x) < |LockList(BillsOf(e, x))| && Holder(e, y, LockList(BillsOf(e, x))[Position(e, x)])
    requires Position(e, y) < |LockList(BillsOf(e, y))| && Holder(e, x, LockList(BillsOf(e, y))[Position(e, y)])
    ensures Crossed(LockList(BillsOf(e, x)), LockList(BillsOf(e, y)))
  {
    var p, q, i, j := LockList(BillsOf(e, x)), LockList(BillsOf(e, y)), Position(e, x), Position(e, y);
    PayerHolds(e, x, q[j]);
    PayerHolds(e, y, p[i]);
    forall k, l | 0 <= k < i && 0 <= l < j
      ensures p[..i][k] != q[..j][l]
    {
      PayerHolds(e, x, p[..i][k]);
      PayerHolds(e, y, q[..j][l]);
    }
    BlockedIsCrossed(p, q, i, j);
  }

  /** The first bills differ, and one of them is among the bills of the other. */
  predicate FirstBillsMeet(bills: seq<int>, others: seq<int>) {
    bills != [] && others != [] && bills[0] != others[0] && (bills[0] in others || others[0] in bills)
  }

  lemma LockListHas(bills: seq<int>, b: int)
    requires b != CLOCK
    ensures b in LockList(bills) <==> b in bills
  {
    var list := LockList(bills);
    if b in bills {
      var i :| 0 <= i < |bills| && bills[i] == b;
      assert list[if i == 0 then 0 else i + 1] == b;
    }
    if b in list {
      var i :| 0 <= i < |list| && list[i] == b;
      assert b == bills[if i == 0 then 0 else i - 1];
    }
  }

  lemma FirstSharedLock(bills: seq<int>, others: seq<int>)
    requires bills != [] && others != [] && CLOCK !in bills
    ensures FirstShared(LockList(bills), LockList(others)) == if bills[0] in others then 0 else 1
  {
    var p, q := LockList(bills), LockList(others);
    LockListHas(others, bills[0]);
    assert p[0] == bills[0] && q[1] == CLOCK;
    assert p[1..][0] == CLOCK;
  }

  /** With the clock taken right after the first bill, lock lists are crossed if and only if the first
      bills differ and one of them is among the bills of the other. */
  lemma CrossedIff(bills: seq<int>, others: seq<int>)
    requires CLOCK !in bills && CLOCK !in others
    ensures Crossed(LockList(bills), LockList(others)) <==> FirstBillsMeet(bills, others)
  {
    if bills != [] && others != [] {
      FirstSharedLock(bills, others);
      FirstSharedLock(others, bills);
    }
  }
}
