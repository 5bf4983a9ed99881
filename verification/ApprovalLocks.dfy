/** When two approvals, or an approval and a receipt or edit, can block each other: exactly when the
    first bills they lock differ and one of these is among the bills of the other. */
module ApprovalLocks {
  import opened Wrappers
  import opened CollectionKeys
  import opened CollectionModel
  import opened CollectionRuns
  import opened CollectionSafety
  import opened CollectionTheorems
  import opened CollectionRefusals
  import opened Planning
  import opened LockOrder
  import opened PlanningLocks
  import opened PayerLocks
  import opened CrossedLocks

  /** An owner's approval of one collection. */
  datatype Split = Split(uid: string, allocations: seq<Portion>, expected: Option<int>)

  /** Someone who books money: an approval, or a receipt or edit of one bill. */
  datatype Payer = ByApproval(split: Split) | ByTill(t: nat, work: Action)

  function Wanted(x: Split): seq<Portion> {
    PositivePart(x.allocations)
  }

  predicate Sensible(z: Payer) {
    z.ByTill? ==> OnOneBill(z.work)
  }

  function PartyOf(z: Payer): Party {
    if z.ByApproval? then TheApproval(z.split.uid) else TheTill(z.t)
  }

  /** The bills of a payer, in the order in which they are locked. */
  function Order(z: Payer): (bills: seq<int>)
    requires Sensible(z)
    ensures CLOCK !in bills
  {
    if z.ByApproval? then Bills(Wanted(z.split)) else [BillOf(z.work) as int]
  }

  function Locks(z: Payer): seq<int>
    requires Sensible(z)
  {
    LockList(Order(z))
  }

  predicate StepOf(z: Payer, a: Act) {
    match z
    case ByApproval(x) =>
      || a == Money(Open(x.uid, x.allocations, x.expected)) || a == Grip(x.uid)
      || a == Money(Record(x.uid)) || a == Money(Commit(x.uid)) || a == Money(Abort(x.uid))
    case ByTill(t, work) => a == Take(t, work) || a == Settle(t) || a == Leave(t)
  }

  ghost predicate OnlyThem(run: seq<Act>, x: Payer, y: Payer) {
    forall i :: 0 <= i < |run| ==> StepOf(x, run[i]) || StepOf(y, run[i])
  }

  /** Some run of the two payers leads there. */
  ghost predicate ReachedBy(d: Desk, e: Desk, x: Payer, y: Payer) {
    exists run :: Feasible(d, run) && Ended(d, run) == e && OnlyThem(run, x, y)
  }

  lemma ReachedNext(d: Desk, e: Desk, x: Payer, y: Payer, a: Act)
    requires ReachedBy(d, e, x, y) && Can(e, a) && (StepOf(x, a) || StepOf(y, a))
    ensures ReachedBy(d, Next(e, a), x, y)
  {
    var run :| Feasible(d, run) && Ended(d, run) == e && OnlyThem(run, x, y);
    var more := run + [a];
    assert more[..|run|] == run && more[|run|] == a;
    assert Feasible(d, more) && Ended(d, more) == Next(e, a);
    assert OnlyThem(more, x, y);
  }

  lemma ReachedIsOk(d: Desk, e: Desk, x: Payer, y: Payer)
    requires DeskOk(d) && Quiet(d) && ReachedBy(d, e, x, y)
    ensures DeskOk(e) && GripsOk(e)
  {
    var run :| Feasible(d, run) && Ended(d, run) == e && OnlyThem(run, x, y);
    RunKeepsDesk(d, run);
    LocksAreExclusive(d, run);
  }

  /** On its own, the payer would go through. */
  ghost predicate GoesThrough(s: System, z: Payer) {
    match z
    case ByApproval(x) => Confirm(s.books, x.uid, x.allocations, x.expected).Ok?
    case ByTill(t, work) => OnOneBill(work) && BillOf(work) in s.books.bills && Enabled(s, work)
  }

  /** On a quiet desk a receipt or an edit of a bill that is there is made, and leaves no lock. */
  lemma TillGoesThrough(d: Desk, t: nat, work: Action)
    requires Quiet(d) && Enabled(d.money, work)
    requires (work.Pay? && work.receipt.bill in d.money.books.bills) || (work.Edit? && work.bill in d.money.books.bills)
    ensures GoesThrough(d.money, ByTill(t, work))
    ensures var run := [Take(t, work), Settle(t)];
            Feasible(d, run) && Ended(d, run) == d.(money := Apply(d.money, work))
  {
    var first, run := [Take(t, work)], [Take(t, work), Settle(t)];
    assert first[..0] == [] && run[..1] == first;
    assert Feasible(d, []) && Ended(d, []) == d && Can(d, Take(t, work));
    assert Feasible(d, first) && Ended(d, first) == Next(d, Take(t, work));
    assert Next(d, Take(t, work)).tills - {t} == d.tills;
  }

  // ---- a payer on its way ----

  function FlightAt(x: Split, n: nat): InFlight
    requires n <= |Wanted(x)|
  {
    Flight(x.uid, x.expected, Wanted(x), n)
  }

  /** The desk on which the payer has its first `k` locks. */
  function At(e: Desk, z: Payer, k: nat): Desk
    requires Sensible(z) && k <= |Locks(z)|
  {
    match z
    case ByApproval(x) =>
      e.(money := e.money.(open := e.money.open[x.uid := FlightAt(x, if k <= 1 then 0 else k - 1)]),
         grips := if k == 1 then e.grips + {x.uid} else e.grips - {x.uid})
    case ByTill(t, work) => if k == 0 then e else e.(tills := e.tills[t := Till(BillOf(work), work)])
  }

  /** None of the locks is with anybody else. */
  ghost predicate OthersOff(e: Desk, z: Payer, locks: seq<int>) {
    forall y, lock :: y != PartyOf(z) && Holder(e, y, lock) ==> lock !in locks
  }

  lemma OthersStayOff(e: Desk, z: Payer, k: nat, locks: seq<int>)
    requires Sensible(z) && k <= |Locks(z)| && OthersOff(e, z, locks)
    ensures OthersOff(At(e, z, k), z, locks)
  {
    forall y, lock | y != PartyOf(z) && Holder(At(e, z, k), y, lock)
      ensures Holder(e, y, lock)
    {
      if y.TheApproval? {
        assert Gripping(At(e, z, k), y.uid) == Gripping(e, y.uid);
      }
    }
  }

  lemma FreeOfOthers(f: Desk, z: Payer, bill: nat, locks: seq<int>)
    requires f.planners == map[] && GripsOk(f) && OthersOff(f, z, locks) && bill in locks
    ensures Unlocked(f, bill, None)
    ensures forall u :: u in f.money.open && TheApproval(u) != PartyOf(z) ==> !Holds(f.money.open[u], bill)
    ensures forall u :: u in f.grips && f.money.open[u].wanted != [] && TheApproval(u) != PartyOf(z) ==>
              f.money.open[u].wanted[0].bill != bill
    ensures forall t :: t in f.tills && TheTill(t) != PartyOf(z) ==> f.tills[t].bill != bill
  {
    forall u | u in f.money.open && TheApproval(u) != PartyOf(z)
      ensures !Holds(f.money.open[u], bill)
    {
      assert Holds(f.money.open[u], bill) ==> Holder(f, TheApproval(u), bill);
    }
    forall u | u in f.grips && f.money.open[u].wanted != [] && TheApproval(u) != PartyOf(z)
      ensures f.money.open[u].wanted[0].bill != bill
    {
      assert Gripping(f, u);
      assert f.money.open[u].wanted[0].bill == bill ==> Holder(f, TheApproval(u), bill);
    }
    forall t | t in f.tills && TheTill(t) != PartyOf(z)
      ensures f.tills[t].bill != bill
    {
      assert f.tills[t].bill == bill ==> Holder(f, TheTill(t), bill);
    }
  }

  lemma ClockFreeOfOthers(f: Desk, x: Split, locks: seq<int>)
    requires OthersOff(f, ByApproval(x), locks) && CLOCK in locks
    ensures ClockFree(f, Some(x.uid))
  {
    forall u | u in f.money.open && u != x.uid
      ensures f.money.open[u].pending == []
    {
      assert f.money.open[u].pending != [] ==> Holder(f, TheApproval(u), CLOCK);
    }
  }

  lemma LockAt(z: Payer, k: nat)
    requires Sensible(z) && Order(z) != []
    ensures |Locks(z)| == |Order(z)| + 1 && Locks(z)[0] == Order(z)[0] && Locks(z)[1] == CLOCK
    ensures 1 < k < |Locks(z)| ==> Locks(z)[k] == Order(z)[k - 1]
  {
  }

  lemma PaymentsOfAGoodSplit(books: Books, x: Split, n: nat)
    requires LedgerOk(books) && Confirm(books, x.uid, x.allocations, x.expected).Ok? && n < |Wanted(x)|
    ensures PaymentOf(books, x.uid, FlightAt(x, n)).Ok? && Wanted(x)[n].bill in books.bills
  {
    var wanted := Wanted(x);
    CheckedPortionsFit(books, x.uid, x.allocations, x.expected);
    assert ReceiptsFor(x.uid, x.expected, wanted[..0]) == [];
    BatchGoesThroughIff(books, x.uid, x.expected, wanted);
    PostedInTurn(books, x.uid, x.expected, wanted, n);
  }


  /** An approval with its first lock to take. */
  lemma CanGrip(f: Desk, x: Split)
    requires f.planners == map[] && GripsOk(f) && LedgerOk(f.money.books)
    requires Confirm(f.money.books, x.uid, x.allocations, x.expected).Ok? && Wanted(x) != []
    requires x.uid in f.money.open && x.uid !in f.grips && f.money.open[x.uid] == FlightAt(x, 0)
    requires OthersOff(f, ByApproval(x), Locks(ByApproval(x))[..1])
    ensures Can(f, Grip(x.uid))
  {
    var locks := Locks(ByApproval(x))[..1];
    assert locks[0] == Wanted(x)[0].bill;
    FreeOfOthers(f, ByApproval(x), Wanted(x)[0].bill, locks);
    PaymentsOfAGoodSplit(f.money.books, x, 0);
  }

  lemma RecordIsEnabled(s: System, x: Split, n: nat)
    requires LedgerOk(s.books) && Confirm(s.books, x.uid, x.allocations, x.expected).Ok? && n < |Wanted(x)|
    requires x.uid in s.open && s.open[x.uid] == FlightAt(x, n) && Free(s, Wanted(x)[n].bill, Some(x.uid))
    ensures Enabled(s, Record(x.uid))
  {
    PaymentsOfAGoodSplit(s.books, x, n);
    assert NextPayment(s, x.uid) == PaymentOf(s.books, x.uid, s.open[x.uid]);
  }

  lemma RecordHasLocks(f: Desk, x: Split, n: nat, locks: seq<int>)
    requires f.planners == map[] && GripsOk(f) && n < |Wanted(x)|
    requires x.uid in f.money.open && f.money.open[x.uid] == FlightAt(x, n) && (n == 0 <==> x.uid in f.grips)
    requires OthersOff(f, ByApproval(x), locks) && CLOCK in locks && Wanted(x)[n].bill in locks
    ensures HasLocks(f, Record(x.uid)) && Free(f.money, Wanted(x)[n].bill, Some(x.uid))
  {
    FreeOfOthers(f, ByApproval(x), Wanted(x)[n].bill, locks);
    ClockFreeOfOthers(f, x, locks);
  }

  /** An approval that can have the bill of its next payment, and the clock. */
  lemma CanRecord(f: Desk, x: Split, n: nat)
    requires f.planners == map[] && GripsOk(f) && LedgerOk(f.money.books)
    requires Confirm(f.money.books, x.uid, x.allocations, x.expected).Ok? && n < |Wanted(x)|
    requires x.uid in f.money.open && f.money.open[x.uid] == FlightAt(x, n) && (n == 0 <==> x.uid in f.grips)
    requires OthersOff(f, ByApproval(x), Locks(ByApproval(x))[..n + 2])
    ensures Can(f, Money(Record(x.uid)))
  {
    var locks := Locks(ByApproval(x))[..n + 2];
    LockAt(ByApproval(x), n + 1);
    assert locks[if n == 0 then 0 else n + 1] == Wanted(x)[n].bill && locks[1] == CLOCK;
    RecordHasLocks(f, x, n, locks);
    RecordIsEnabled(f.money, x, n);
  }

  lemma RecordLeads(f: Desk, x: Split, n: nat)
    requires Inv(f.money) && Can(f, Money(Record(x.uid))) && n < |Wanted(x)|
    requires x.uid in f.money.open && f.money.open[x.uid] == FlightAt(x, n) && n + 2 <= |Locks(ByApproval(x))|
    ensures Next(f, Money(Record(x.uid))) == At(f, ByApproval(x), n + 2)
  {
    PaymentStep(f, x.uid);
    NextFlight(x.uid, x.expected, Wanted(x), n);
    LockAt(ByApproval(x), n + 1);
  }

  lemma AtTwice(e: Desk, z: Payer, k: nat, l: nat)
    requires Sensible(z) && 0 < k <= |Locks(z)| && 0 < l <= |Locks(z)|
    ensures At(At(e, z, k), z, l) == At(e, z, l)
  {
  }

  /** The desk has room for the payer, and nobody else is in the way of its first locks. */
  ghost predicate Clear(e: Desk, z: Payer, k: nat)
    requires Sensible(z) && k <= |Locks(z)|
  {
    && e.planners == map[] && !IsParty(e, PartyOf(z)) && GoesThrough(e.money, z) && OthersOff(e, z, Locks(z)[..k])
  }

  lemma OpenedFlight(s: System, x: Split)
    requires x.uid !in s.open && Confirm(s.books, x.uid, x.allocations, x.expected).Ok?
    ensures Enabled(s, Open(x.uid, x.allocations, x.expected))
    ensures Apply(s, Open(x.uid, x.allocations, x.expected)) == s.(open := s.open[x.uid := FlightAt(x, 0)])
  {
    OpenAddsAFlight(s, x.uid, x.allocations, x.expected);
    assert ReceiptsFor(x.uid, x.expected, Wanted(x)[..0]) == [];
  }

  lemma OpenLeads(e: Desk, x: Split)
    requires GripsOk(e) && x.uid !in e.money.open && Confirm(e.money.books, x.uid, x.allocations, x.expected).Ok?
    ensures Can(e, Money(Open(x.uid, x.allocations, x.expected)))
    ensures Next(e, Money(Open(x.uid, x.allocations, x.expected))) == At(e, ByApproval(x), 0)
  {
    OpenedFlight(e.money, x);
    assert e.grips - {x.uid} == e.grips;
  }

  lemma OpenedCanGrip(e: Desk, x: Split)
    requires GripsOk(e) && LedgerOk(e.money.books) && Wanted(x) != [] && Clear(e, ByApproval(x), 1)
    ensures Can(At(e, ByApproval(x), 0), Grip(x.uid))
  {
    var f := At(e, ByApproval(x), 0);
    OthersStayOff(e, ByApproval(x), 0, Locks(ByApproval(x))[..1]);
    CanGrip(f, x);
  }

  lemma GripLeads(e: Desk, x: Split)
    requires Wanted(x) != [] && Can(At(e, ByApproval(x), 0), Grip(x.uid))
    ensures Next(At(e, ByApproval(x), 0), Grip(x.uid)) == At(e, ByApproval(x), 1)
  {
    assert e.grips - {x.uid} + {x.uid} == e.grips + {x.uid};
  }

  lemma OpensAndGrips(d: Desk, e: Desk, x: Payer, y: Payer, z: Payer)
    requires ReachedBy(d, e, x, y) && (z == x || z == y) && z.ByApproval? && Order(z) != []
    requires GripsOk(e) && LedgerOk(e.money.books) && Clear(e, z, 1)
    ensures ReachedBy(d, At(e, z, 1), x, y)
  {
    OpenLeads(e, z.split);
    OpenedCanGrip(e, z.split);
    GripLeads(e, z.split);
    ReachedNext(d, e, x, y, Money(Open(z.split.uid, z.split.allocations, z.split.expected)));
    ReachedNext(d, At(e, z, 0), x, y, Grip(z.split.uid));
  }

  lemma PaymentLeads(e: Desk, x: Split, k: nat)
    requires 0 < k < |Locks(ByApproval(x))| && Clear(e, ByApproval(x), k + 1)
    requires GripsOk(At(e, ByApproval(x), k)) && Inv(At(e, ByApproval(x), k).money)
    ensures Can(At(e, ByApproval(x), k), Money(Record(x.uid)))
    ensures Next(At(e, ByApproval(x), k), Money(Record(x.uid))) == At(e, ByApproval(x), k + 1)
  {
    var z := ByApproval(x);
    OthersStayOff(e, z, k, Locks(z)[..k + 1]);
    CanRecord(At(e, z, k), x, k - 1);
    RecordLeads(At(e, z, k), x, k - 1);
    AtTwice(e, z, k, k + 1);
  }

  lemma PaysOneMore(d: Desk, e: Desk, x: Payer, y: Payer, z: Payer, k: nat)
    requires DeskOk(d) && Quiet(d) && (z == x || z == y) && z.ByApproval?
    requires 0 < k < |Locks(z)| && Clear(e, z, k + 1) && ReachedBy(d, At(e, z, k), x, y)
    ensures ReachedBy(d, At(e, z, k + 1), x, y)
  {
    ReachedIsOk(d, At(e, z, k), x, y);
    PaymentLeads(e, z.split, k);
    ReachedNext(d, At(e, z, k), x, y, Money(Record(z.split.uid)));
  }

  lemma TillOpens(d: Desk, e: Desk, x: Payer, y: Payer, z: Payer)
    requires ReachedBy(d, e, x, y) && (z == x || z == y) && z.ByTill? && GripsOk(e) && Sensible(z) && Clear(e, z, 1)
    ensures ReachedBy(d, At(e, z, 1), x, y)
  {
    var bill := BillOf(z.work);
    assert Locks(z)[..1][0] == bill;
    FreeOfOthers(e, z, bill, Locks(z)[..1]);
    assert Can(e, Take(z.t, z.work));
    ReachedNext(d, e, x, y, Take(z.t, z.work));
  }

  lemma ClearFewer(e: Desk, z: Payer, k: nat, l: nat)
    requires Sensible(z) && k <= l <= |Locks(z)| && Clear(e, z, l)
    ensures Clear(e, z, k)
  {
    assert forall lock :: lock in Locks(z)[..k] ==> lock in Locks(z)[..l];
  }

  lemma TakesItsFirstLock(d: Desk, e: Desk, x: Payer, y: Payer, z: Payer)
    requires DeskOk(d) && Quiet(d) && ReachedBy(d, e, x, y) && (z == x || z == y) && Sensible(z)
    requires 1 < |Locks(z)| && Clear(e, z, 1)
    ensures ReachedBy(d, At(e, z, 1), x, y)
  {
    ReachedIsOk(d, e, x, y);
    if z.ByTill? {
      TillOpens(d, e, x, y, z);
    } else {
      OpensAndGrips(d, e, x, y, z);
    }
  }

  /** A payer takes its first locks, short of finishing. */
  lemma {:induction false} TakesItsFirstLocks(d: Desk, e: Desk, x: Payer, y: Payer, z: Payer, k: nat)
    requires DeskOk(d) && Quiet(d) && ReachedBy(d, e, x, y) && (z == x || z == y) && Sensible(z)
    requires 0 < k < |Locks(z)| && Clear(e, z, k)
    ensures ReachedBy(d, At(e, z, k), x, y)
  {
    if k == 1 {
      TakesItsFirstLock(d, e, x, y, z);
    } else {
      ClearFewer(e, z, k - 1, k);
      TakesItsFirstLocks(d, e, x, y, z, k - 1);
      PaysOneMore(d, e, x, y, z, k - 1);
    }
  }

  // ---- exactly when two payers can block each other ----

  ghost predicate StandsAt(f: Desk, z: Payer, k: nat) {
    Sensible(z) && IsParty(f, PartyOf(z)) && BillsOf(f, PartyOf(z)) == Order(z) && Position(f, PartyOf(z)) == k
  }

  lemma BothStand(d: Desk, x: Payer, y: Payer, i: nat, j: nat)
    requires Sensible(x) && Sensible(y) && PartyOf(x) != PartyOf(y)
    requires 0 < i < |Locks(x)| && 0 < j < |Locks(y)|
    ensures StandsAt(At(At(d, x, i), y, j), x, i) && StandsAt(At(At(d, x, i), y, j), y, j)
  {
  }

  lemma StandingAsks(f: Desk, z: Payer, k: nat)
    requires FlightsOk(f.money) && StandsAt(f, z, k) && k < |Locks(z)|
    ensures AsksOne(f, PartyOf(z)) && AskOf(f, PartyOf(z)) == Locks(z)[k]
  {
    if z.ByApproval? {
      assert FlightOk(f.money.books, z.split.uid, f.money.open[z.split.uid]);
      LockAt(z, k);
    }
  }

  lemma OneWaitsForTheOther(f: Desk, x: Payer, i: nat, y: Payer, j: nat)
    requires FlightsOk(f.money) && PartyOf(x) != PartyOf(y) && StandsAt(f, x, i) && StandsAt(f, y, j)
    requires i < |Locks(x)| && j <= |Locks(y)| && Locks(x)[i] in Locks(y)[..j]
    ensures WaitsFor(DeskLocks(f), PartyOf(x), PartyOf(y))
  {
    StandingAsks(f, x, i);
    PayerHolds(f, PartyOf(y), Locks(x)[i]);
    assert PartyOf(x) in Parties(f) && PartyOf(y) in Parties(f);
  }

  lemma BlockedPayersWait(f: Desk, x: Payer, i: nat, y: Payer, j: nat)
    requires FlightsOk(f.money) && PartyOf(x) != PartyOf(y) && StandsAt(f, x, i) && StandsAt(f, y, j)
    requires Blocked(Locks(x), Locks(y), i, j)
    ensures WaitCycle(DeskLocks(f), [PartyOf(x), PartyOf(y)])
  {
    OneWaitsForTheOther(f, x, i, y, j);
    OneWaitsForTheOther(f, y, j, x, i);
  }

  lemma LockListIsDistinct(bills: seq<int>)
    requires Distinct(bills) && CLOCK !in bills
    ensures Distinct(LockList(bills))
  {
    var locks := LockList(bills);
    forall a, b | 0 <= a < b < |locks|
      ensures locks[a] != locks[b]
    {
      assert a != 1 ==> locks[a] == bills[if a == 0 then 0 else a - 1];
      assert b != 1 ==> locks[b] == bills[b - 1];
    }
  }

  lemma SplitsAreDistinct(books: Books, x: Split)
    requires LedgerOk(books) && Confirm(books, x.uid, x.allocations, x.expected).Ok?
    ensures Distinct(Bills(Wanted(x))) && Wanted(x) != []
  {
    CheckedPortionsFit(books, x.uid, x.allocations, x.expected);
  }

  lemma OrdersAreDistinct(s: System, z: Payer)
    requires LedgerOk(s.books) && GoesThrough(s, z)
    ensures Sensible(z) && Distinct(Locks(z)) && Order(z) != []
  {
    if z.ByApproval? {
      SplitsAreDistinct(s.books, z.split);
    }
    LockListIsDistinct(Order(z));
  }

  lemma QuietIsClear(d: Desk, z: Payer, k: nat)
    requires Quiet(d) && Sensible(z) && GoesThrough(d.money, z) && k <= |Locks(z)|
    ensures Clear(d, z, k)
  {
  }

  lemma FirstIsOff(d: Desk, x: Payer, i: nat, y: Payer, j: nat)
    requires Quiet(d) && Sensible(x) && Sensible(y) && PartyOf(x) != PartyOf(y)
    requires Beside(Locks(x), Locks(y), i, j)
    requires FlightsOk(At(d, x, i).money) && StandsAt(At(d, x, i), x, i)
    ensures OthersOff(At(d, x, i), y, Locks(y)[..j])
  {
    forall z, lock | z != PartyOf(y) && Holder(At(d, x, i), z, lock)
      ensures lock !in Locks(y)[..j]
    {
      assert z == PartyOf(x);
      PayerHolds(At(d, x, i), z, lock);
    }
  }

  lemma OneStands(d: Desk, x: Payer, i: nat)
    requires Quiet(d) && Sensible(x) && 0 < i < |Locks(x)|
    ensures StandsAt(At(d, x, i), x, i)
  {
  }

  lemma SecondStillGoes(d: Desk, x: Payer, i: nat, y: Payer)
    requires Quiet(d) && Sensible(x) && 0 < i < |Locks(x)| && GoesThrough(d.money, y) && PartyOf(x) != PartyOf(y)
    requires y.ByTill? ==> OthersOff(At(d, x, i), y, [BillOf(y.work) as int])
    ensures GoesThrough(At(d, x, i).money, y) && !IsParty(At(d, x, i), PartyOf(y))
  {
    if y.ByTill? && x.ByApproval? {
      var f, bill := At(d, x, i), BillOf(y.work);
      assert Holds(f.money.open[x.split.uid], bill) ==> Holder(f, PartyOf(x), bill);
    }
  }

  lemma SecondIsClear(d: Desk, x: Payer, i: nat, y: Payer, j: nat)
    requires Quiet(d) && Sensible(x) && Sensible(y) && 0 < i < |Locks(x)| && 0 < j < |Locks(y)|
    requires GoesThrough(d.money, y) && PartyOf(x) != PartyOf(y)
    requires OthersOff(At(d, x, i), y, Locks(y)[..j])
    ensures Clear(At(d, x, i), y, j)
  {
    if y.ByTill? {
      assert Locks(y)[..j][0] == BillOf(y.work);
    }
    SecondStillGoes(d, x, i, y);
  }

  lemma BothTakeTheirLocks(d: Desk, x: Payer, i: nat, y: Payer, j: nat)
    requires DeskOk(d) && Quiet(d) && GoesThrough(d.money, x) && GoesThrough(d.money, y) && PartyOf(x) != PartyOf(y)
    requires Sensible(x) && Sensible(y) && Beside(Locks(x), Locks(y), i, j)
    ensures ReachedBy(d, At(At(d, x, i), y, j), x, y)
  {
    assert Feasible(d, []) && Ended(d, []) == d && OnlyThem([], x, y);
    QuietIsClear(d, x, i);
    TakesItsFirstLocks(d, d, x, y, x, i);
    ReachedIsOk(d, At(d, x, i), x, y);
    OneStands(d, x, i);
    FirstIsOff(d, x, i, y, j);
    SecondIsClear(d, x, i, y, j);
    TakesItsFirstLocks(d, At(d, x, i), x, y, y, j);
  }

  /** Some run of the two ends with each waiting for the other. */
  ghost predicate CanDeadlock(d: Desk, x: Payer, y: Payer) {
    exists e :: ReachedBy(d, e, x, y) && WaitCycle(DeskLocks(e), [PartyOf(x), PartyOf(y)])
  }

  lemma CrossedPayersBlock(d: Desk, x: Payer, y: Payer)
    requires DeskOk(d) && Quiet(d) && GoesThrough(d.money, x) && GoesThrough(d.money, y) && PartyOf(x) != PartyOf(y)
    requires Sensible(x) && Sensible(y) && Crossed(Locks(x), Locks(y))
    ensures CanDeadlock(d, x, y)
  {
    OrdersAreDistinct(d.money, x);
    OrdersAreDistinct(d.money, y);
    var i, j := CrossedCanBlock(Locks(x), Locks(y));
    BothTakeTheirLocks(d, x, i, y, j);
    BothStand(d, x, y, i, j);
    ReachedIsOk(d, At(At(d, x, i), y, j), x, y);
    BlockedPayersWait(At(At(d, x, i), y, j), x, i, y, j);
  }

  /** The payer, if at work, has the bills it was given. */
  ghost predicate AsGiven(e: Desk, z: Payer)
    requires Sensible(z)
  {
    match z
    case ByApproval(x) => x.uid in e.money.open ==> e.money.open[x.uid].wanted == Wanted(x)
    case ByTill(t, work) => t in e.tills ==> e.tills[t] == Till(BillOf(work), work)
  }

  lemma WantedStays(s: System, m: Action)
    requires Enabled(s, m)
    ensures forall u :: u in Apply(s, m).open ==>
              if m.Open? && u == m.uid then Apply(s, m).open[u].wanted == PositivePart(m.allocations)
              else u in s.open && Apply(s, m).open[u].wanted == s.open[u].wanted
  {
    if m.Open? {
      OpenAddsAFlight(s, m.uid, m.allocations, m.expected);
    } else if !m.Record? {
      OtherStepsKeepFlights(s, m);
    }
  }

  lemma StepKeepsGiven(e: Desk, a: Act, x: Payer, y: Payer, z: Payer)
    requires Can(e, a) && (StepOf(x, a) || StepOf(y, a)) && PartyOf(x) != PartyOf(y) && (z == x || z == y)
    requires Sensible(z) && AsGiven(e, z)
    ensures AsGiven(Next(e, a), z)
  {
    if a.Money? {
      WantedStays(e.money, a.action);
    } else if a.Settle? {
      OtherStepsKeepFlights(e.money, e.tills[a.t].work);
    }
  }

  lemma {:induction false} TheyAreAsGiven(d: Desk, run: seq<Act>, x: Payer, y: Payer, z: Payer)
    requires Quiet(d) && Feasible(d, run) && OnlyThem(run, x, y) && PartyOf(x) != PartyOf(y)
    requires (z == x || z == y) && Sensible(z)
    ensures AsGiven(Ended(d, run), z)
    decreases |run|
  {
    if run != [] {
      var front := run[..|run| - 1];
      assert forall i :: 0 <= i < |front| ==> front[i] == run[i];
      TheyAreAsGiven(d, front, x, y, z);
      StepKeepsGiven(Ended(d, front), run[|run| - 1], x, y, z);
    }
  }

  lemma GivenBills(e: Desk, z: Payer)
    requires Sensible(z) && AsGiven(e, z) && IsParty(e, PartyOf(z))
    ensures BillsOf(e, PartyOf(z)) == Order(z)
  {
  }

  lemma WaitersAreCrossed(d: Desk, x: Payer, y: Payer)
    requires DeskOk(d) && Quiet(d) && Sensible(x) && Sensible(y) && PartyOf(x) != PartyOf(y) && CanDeadlock(d, x, y)
    ensures Crossed(Locks(x), Locks(y))
  {
    var e :| ReachedBy(d, e, x, y) && WaitCycle(DeskLocks(e), [PartyOf(x), PartyOf(y)]);
    var run :| Feasible(d, run) && Ended(d, run) == e && OnlyThem(run, x, y);
    WaitingPayersAreCrossed(d, run, PartyOf(x), PartyOf(y));
    TheyAreAsGiven(d, run, x, y, x);
    TheyAreAsGiven(d, run, x, y, y);
    GivenBills(e, x);
    GivenBills(e, y);
  }

  /** Two payers that would each go through can end up waiting for each other if and only if the first
      bills they lock differ, and one of these is among the bills of the other. */
  lemma PayersDeadlockIff(d: Desk, x: Payer, y: Payer)
    requires DeskOk(d) && Quiet(d) && PartyOf(x) != PartyOf(y) && Sensible(x) && Sensible(y)
    requires GoesThrough(d.money, x) && GoesThrough(d.money, y)
    ensures CanDeadlock(d, x, y) <==> FirstBillsMeet(Order(x), Order(y))
  {
    CrossedIff(Order(x), Order(y));
    if CanDeadlock(d, x, y) {
      WaitersAreCrossed(d, x, y);
    }
    if Crossed(Locks(x), Locks(y)) {
      CrossedPayersBlock(d, x, y);
    }
  }

  /** Two approvals: ascending splits are no safer than others. */
  lemma ApprovalsDeadlockIff(d: Desk, x: Split, y: Split)
    requires DeskOk(d) && Quiet(d) && x.uid != y.uid
    requires GoesThrough(d.money, ByApproval(x)) && GoesThrough(d.money, ByApproval(y))
    ensures CanDeadlock(d, ByApproval(x), ByApproval(y)) <==> FirstBillsMeet(Bills(Wanted(x)), Bills(Wanted(y)))
  {
    PayersDeadlockIff(d, ByApproval(x), ByApproval(y));
  }

  /** An approval and a receipt or edit: if and only if its bill is one of the split, but not the
      first. */
  lemma ApprovalAndTillDeadlockIff(d: Desk, x: Split, t: nat, work: Action)
    requires DeskOk(d) && Quiet(d) && GoesThrough(d.money, ByApproval(x)) && GoesThrough(d.money, ByTill(t, work))
    ensures CanDeadlock(d, ByApproval(x), ByTill(t, work)) <==>
            BillOf(work) as int in Bills(Wanted(x)) && BillOf(work) as int != Bills(Wanted(x))[0]
  {
    OrdersAreDistinct(d.money, ByApproval(x));
    PayersDeadlockIff(d, ByApproval(x), ByTill(t, work));
  }

  /** Receipts and edits never block each other. */
  lemma TillsNeverDeadlock(d: Desk, t: nat, work: Action, u: nat, other: Action)
    requires DeskOk(d) && Quiet(d) && t != u && GoesThrough(d.money, ByTill(t, work)) && GoesThrough(d.money, ByTill(u, other))
    ensures !CanDeadlock(d, ByTill(t, work), ByTill(u, other))
  {
    PayersDeadlockIff(d, ByTill(t, work), ByTill(u, other));
  }

  // ---- a desk on which it happens ----

  /** Two completed collections of one customer, planned without bills, and two bills of theirs. */
  function TwoCollections(u: string, v: string): Books {
    var task := Task(COLLECT, Done, 1000, {}, Some(7));
    var bill := Bill(Some(7), false, false, 5000, 0, 0, 0);
    Books(map[u := task, v := task], map[1 := bill, 2 := bill], [])
  }

  function IdleDesk(books: Books): Desk {
    Desk(System(books, map[], []), map[], {}, map[])
  }

  lemma TwoCollectionsAreABeginning(u: string, v: string)
    requires |u| == |v| == UID_LENGTH
    ensures Beginning(System(TwoCollections(u, v), map[], []))
  {
  }

  lemma UnlinkedTasksAreExclusive(books: Books)
    requires forall u :: u in books.tasks ==> books.tasks[u].linked == {}
    ensures PlansOk(books, map[])
  {
  }

  lemma TwoCollectionsAreOk(u: string, v: string)
    requires |u| == |v| == UID_LENGTH
    ensures DeskOk(IdleDesk(TwoCollections(u, v)))
  {
    TwoCollectionsAreABeginning(u, v);
    BeginningSatisfiesInv(System(TwoCollections(u, v), map[], []));
    UnlinkedTasksAreExclusive(TwoCollections(u, v));
  }

  lemma PairSums(p: Portion, q: Portion)
    requires p.amount > 0 && q.amount > 0
    ensures PositivePart([p]) == [p] && SumOf([p]) == p.amount
    ensures PositivePart([p, q]) == [p, q] && SumOf([p, q]) == p.amount + q.amount
  {
    assert [p, q][..1] == [p] && [p][..0] == [];
  }

  predicate SmallSplit(split: seq<Portion>) {
    || split == [Portion(1, 100)] || split == [Portion(2, 100)]
    || split == [Portion(1, 100), Portion(2, 100)] || split == [Portion(2, 100), Portion(1, 100)]
  }

  lemma PairPasses(u: string, v: string, uid: string, a: nat, b: nat)
    requires uid in {u, v} && a in {1, 2} && b in {1, 2} && a != b
    ensures var split := [Portion(a, 100), Portion(b, 100)];
            PositivePart(split) == split && Check(TwoCollections(u, v), uid, split, Some(0)) == Ok(split)
  {
    var books, split := TwoCollections(u, v), [Portion(a, 100), Portion(b, 100)];
    PairSums(split[0], split[1]);
    assert Candidate(books, books.tasks[uid], [], true, a) && Candidate(books, books.tasks[uid], [], true, b);
    NoMisfitIff(books, books.tasks[uid], [], true, split);
  }

  lemma SinglePasses(u: string, v: string, uid: string, a: nat)
    requires uid in {u, v} && a in {1, 2}
    ensures var split := [Portion(a, 100)];
            PositivePart(split) == split && Check(TwoCollections(u, v), uid, split, Some(0)) == Ok(split)
  {
    var books, split := TwoCollections(u, v), [Portion(a, 100)];
    PairSums(split[0], split[0]);
    assert Candidate(books, books.tasks[uid], [], true, a);
    NoMisfitIff(books, books.tasks[uid], [], true, split);
  }

  lemma SmallSplitPasses(u: string, v: string, uid: string, split: seq<Portion>)
    requires uid in {u, v} && SmallSplit(split)
    ensures PositivePart(split) == split && Check(TwoCollections(u, v), uid, split, Some(0)) == Ok(split)
  {
    if |split| == 1 {
      SinglePasses(u, v, uid, split[0].bill);
    } else {
      PairPasses(u, v, uid, split[0].bill, split[1].bill);
    }
  }

  lemma SmallSplitIsPayable(u: string, v: string, split: seq<Portion>)
    requires SmallSplit(split)
    ensures AllPayable(TwoCollections(u, v).bills, split, |split|)
  {
  }

  /** A split that passes the check goes through when each bill can take its portion. */
  lemma PayableSplitsGoThrough(s: System, x: Split)
    requires LedgerOk(s.books) && Check(s.books, x.uid, x.allocations, x.expected).Ok?
    requires AllPayable(s.books.bills, Wanted(x), |Wanted(x)|)
    ensures GoesThrough(s, ByApproval(x))
  {
    CheckedPortionsFit(s.books, x.uid, x.allocations, x.expected);
    assert ReceiptsFor(x.uid, x.expected, Wanted(x)[..0]) == [];
    BatchGoesThroughIff(s.books, x.uid, x.expected, Wanted(x));
  }

  lemma SmallSplitGoesThrough(u: string, v: string, s: System, x: Split)
    requires s.books == TwoCollections(u, v) && LedgerOk(s.books) && x.uid in {u, v}
    requires SmallSplit(x.allocations) && x.expected == Some(0)
    ensures GoesThrough(s, ByApproval(x)) && Wanted(x) == x.allocations
  {
    SmallSplitPasses(u, v, x.uid, x.allocations);
    SmallSplitIsPayable(u, v, x.allocations);
    PayableSplitsGoThrough(s, x);
  }

  lemma SmallSplitsMeet(split: seq<Portion>, other: seq<Portion>)
    requires split == [Portion(1, 100), Portion(2, 100)] && other != [] && other[0] == Portion(2, 100)
    ensures FirstBillsMeet(Bills(split), Bills(other))
  {
    assert Bills(split)[0] == 1 && Bills(split)[1] == 2 && Bills(other)[0] == 2;
  }

  /** Two collections that no bill ties together, on a desk in order: splits that list the same two
      bills in opposite orders can end up waiting for each other, and so can the ascending split of both
      bills and a split of the second alone. */
  lemma ApprovalsCanDeadlock(u: string, v: string, d: Desk, x: Split, y: Split)
    requires |u| == |v| == UID_LENGTH && u != v && d == IdleDesk(TwoCollections(u, v))
    requires x == Split(u, [Portion(1, 100), Portion(2, 100)], Some(0))
    requires y == Split(v, [Portion(2, 100), Portion(1, 100)], Some(0)) || y == Split(v, [Portion(2, 100)], Some(0))
    ensures DeskOk(d) && GoesThrough(d.money, ByApproval(x)) && GoesThrough(d.money, ByApproval(y))
    ensures CanDeadlock(d, ByApproval(x), ByApproval(y))
  {
    TwoCollectionsAreOk(u, v);
    SmallSplitGoesThrough(u, v, d.money, x);
    SmallSplitGoesThrough(u, v, d.money, y);
    SmallSplitsMeet(x.allocations, y.allocations);
    ApprovalsDeadlockIff(d, x, y);
  }
}
