/** What the invariant of the collection runs means for the owner's books. */
module CollectionTheorems {
  import opened Wrappers
  import opened CollectionKeys
  import opened CollectionModel
  import opened CollectionRuns
  import opened CollectionSafety

  lemma {:induction false} RunKeepsInv(s: System, run: seq<Action>)
    requires Inv(s) && Legal(s, run)
    ensures Inv(After(s, run))
    decreases |run|
  {
    if run != [] {
      var front := run[..|run| - 1];
      RunKeepsInv(s, front);
      StepKeepsInv(After(s, front), run[|run| - 1]);
    }
  }

  /** Before the first approval: no receipt belongs to a collection. */
  ghost predicate Beginning(s: System) {
    && s.open == map[] && s.approvals == []
    && KeysDiffer(s.books.receipts) && Conserved(s.books)
    && (forall i :: 0 <= i < |s.books.receipts| ==> UidOfKey(s.books.receipts[i].key) == None)
    && (forall uid :: uid in s.books.tasks ==> |uid| == UID_LENGTH)
  }

  lemma {:induction false} NothingConfirmed(rs: seq<Receipt>, uid: string)
    requires forall i :: 0 <= i < |rs| ==> UidOfKey(rs[i].key) == None
    ensures Confirmed(rs, uid) == 0
  {
    if rs != [] {
      NothingConfirmed(rs[..|rs| - 1], uid);
    }
  }

  lemma BeginningSatisfiesInv(s: System)
    requires Beginning(s)
    ensures Inv(s)
  {
    forall uid
      ensures Confirmed(s.books.receipts, uid) == 0
    {
      NothingConfirmed(s.books.receipts, uid);
    }
    forall i | 0 <= i < |s.books.receipts|
      ensures WellKeyed(s.books, s.books.receipts[i])
    {
    }
  }

  /** Whatever is approved, retried, aborted, paid or edited, and in whatever order: receipt keys
      never collide, what is confirmed of a collection is exactly what was approved of it, that is
      never more than was collected, there are at most as many approvals as paise collected, and
      every bill has been paid its opening amount and its receipts. */
  lemma ExactlyOnce(s: System, run: seq<Action>, uid: string)
    requires Beginning(s) && Legal(s, run)
    ensures var t := After(s, run);
            && KeysDiffer(t.books.receipts)
            && Confirmed(t.books.receipts, uid) == Approved(t.approvals, uid) <= Cap(t.books.tasks, uid)
            && Batches(t.approvals, uid) <= Cap(t.books.tasks, uid)
            && Conserved(t.books)
  {
    BeginningSatisfiesInv(s);
    RunKeepsInv(s, run);
  }

  lemma {:induction false} ApprovalsGrow(s: System, run: seq<Action>)
    requires Legal(s, run)
    ensures s.approvals <= After(s, run).approvals
    decreases |run|
  {
    if run != [] {
      var front := run[..|run| - 1];
      ApprovalsGrow(s, front);
      assert After(s, front).approvals <= After(s, run).approvals;
    }
  }

  /** An approval that was committed once is refused ever after: when it named a checkpoint, with
      any split at all, and otherwise with any split that names one of its bills again. */
  lemma RepeatsAreRefused(s: System, run: seq<Action>, a: Approval, allocations: seq<Portion>, p: Portion)
    requires Inv(s) && Legal(s, run) && a in s.approvals
    requires a.expected.None? ==> p in allocations && p.amount > 0 && Names(a.wanted, p.bill)
    ensures Check(After(s, run).books, a.uid, allocations, a.expected).Err?
  {
    RunKeepsInv(s, run);
    ApprovalsGrow(s, run);
    var books := After(s, run).books;
    var i :| 0 <= i < |s.approvals| && s.approvals[i] == a;
    assert After(s, run).approvals[i] == a && ApprovalOk(books, a);
    RepeatIsRefused(books, a, allocations, p);
  }

  lemma RepeatIsRefused(books: Books, a: Approval, allocations: seq<Portion>, p: Portion)
    requires ApprovalOk(books, a)
    requires a.expected.None? ==> p in allocations && p.amount > 0 && Names(a.wanted, p.bill)
    ensures Check(books, a.uid, allocations, a.expected).Err?
  {
    ServicesAgree(books.receipts, a.uid);
    if a.expected.None? && a.uid in books.tasks {
      var task, used, wanted := books.tasks[a.uid], Recorded(books.receipts, a.uid), PositivePart(allocations);
      PositivePartNames(allocations, p);
      var i :| 0 <= i < |wanted| && wanted[i] == p;
      assert Names(used, p.bill);
      assert !Fits(books, task, used, false, wanted[i]);
      NoMisfitIff(books, task, used, false, wanted);
    }
  }

  // ---- one call of the service is one run ----

  function Steps(uid: string, allocations: seq<Portion>, expected: Option<int>, n: nat): seq<Action> {
    [Open(uid, allocations, expected)] + seq(n, i => Record(uid))
  }

  function Flight(uid: string, expected: Option<int>, wanted: seq<Portion>, n: nat): InFlight
    requires n <= |wanted|
  {
    InFlight(expected, wanted, n, ReceiptsFor(uid, expected, wanted[..n]))
  }

  function PaymentOf(books: Books, uid: string, f: InFlight): Result<Paid, Refusal>
    requires f.next < |f.wanted|
  {
    var p := f.wanted[f.next];
    RecordPayment(PostAll(books, f.pending), p.bill, p.amount, CollectionKey(uid, p.bill, f.expected))
  }

  lemma PaymentsInTurn(books: Books, uid: string, expected: Option<int>, wanted: seq<Portion>, n: nat)
    requires n < |wanted| && PayFirst(books, uid, expected, wanted, n + 1).Ok?
    ensures PayFirst(books, uid, expected, wanted, n).Ok?
    ensures var before, p := PayFirst(books, uid, expected, wanted, n).value, wanted[n];
            var paid := RecordPayment(before.books, p.bill, p.amount, CollectionKey(uid, p.bill, expected));
            paid.Ok? && PayFirst(books, uid, expected, wanted, n + 1).value == Batch(paid.value.books, before.total + paid.value.receipt.amount)
  {
    assert wanted[..n + 1][..n] == wanted[..n];
  }

  /** After the first `n` payments the machine has just them pending... */
  ghost predicate RunsInTurn(s: System, uid: string, allocations: seq<Portion>, expected: Option<int>, wanted: seq<Portion>, n: nat)
    requires n <= |wanted|
  {
    && Legal(s, Steps(uid, allocations, expected, n))
    && After(s, Steps(uid, allocations, expected, n)) == s.(open := map[uid := Flight(uid, expected, wanted, n)])
  }

  /** ... which is what the service has recorded. */
  ghost predicate PaysInTurn(books: Books, uid: string, expected: Option<int>, wanted: seq<Portion>, n: nat)
    requires n <= |wanted|
  {
    PayFirst(books, uid, expected, wanted, n) ==
      Ok(Batch(PostAll(books, Flight(uid, expected, wanted, n).pending), SumOf(wanted[..n])))
  }

  lemma NextFlight(uid: string, expected: Option<int>, wanted: seq<Portion>, n: nat)
    requires n < |wanted|
    ensures Extended(uid, Flight(uid, expected, wanted, n)) == Flight(uid, expected, wanted, n + 1)
    ensures Flight(uid, expected, wanted, n + 1).pending[..n] == Flight(uid, expected, wanted, n).pending
    ensures SumOf(wanted[..n + 1]) == SumOf(wanted[..n]) + wanted[n].amount
  {
    assert wanted[..n + 1][..n] == wanted[..n];
  }

  lemma PaymentIsEnabled(t: System, uid: string)
    requires uid in t.open && t.open.Keys == {uid} && t.open[uid].next < |t.open[uid].wanted|
    requires NextPayment(t, uid).Ok?
    ensures Enabled(t, Record(uid))
  {
  }

  ghost predicate Posted(books: Books, uid: string, f: InFlight)
    requires f.next < |f.wanted|
  {
    PaymentOf(books, uid, f).Ok? ==>
      && PaymentOf(books, uid, f).value.books == PostAll(books, Extended(uid, f).pending)
      && PaymentOf(books, uid, f).value.receipt.amount == f.wanted[f.next].amount
  }

  /** The payment posts one more receipt of the batch. */
  lemma PaymentPosts(books: Books, uid: string, f: InFlight)
    requires LedgerOk(books) && FlightOk(books, uid, f) && f.next < |f.wanted|
    ensures Posted(books, uid, f)
  {
    if PaymentOf(books, uid, f).Ok? {
      var p := f.wanted[f.next];
      var key := CollectionKey(uid, p.bill, f.expected);
      PostingAppends(books, f.pending);
      BatchKeyIsNew(books, uid, f, key);
      NewReceipt(PostAll(books, f.pending), p, key);
      assert Extended(uid, f).pending[..|f.pending|] == f.pending;
    }
  }

  lemma NextIsPayable(books: Books, uid: string, expected: Option<int>, wanted: seq<Portion>, n: nat)
    requires n < |wanted| && PaysInTurn(books, uid, expected, wanted, n)
    requires PayFirst(books, uid, expected, wanted, n + 1).Ok?
    ensures var paid := PaymentOf(books, uid, Flight(uid, expected, wanted, n));
            && paid.Ok?
            && PayFirst(books, uid, expected, wanted, n + 1) ==
                 Ok(Batch(paid.value.books, SumOf(wanted[..n]) + paid.value.receipt.amount))
  {
    PaymentsInTurn(books, uid, expected, wanted, n);
  }

  lemma NextPays(books: Books, uid: string, expected: Option<int>, wanted: seq<Portion>, n: nat, paid: Paid)
    requires n < |wanted|
    requires paid.books == PostAll(books, Extended(uid, Flight(uid, expected, wanted, n)).pending)
    requires paid.receipt.amount == wanted[n].amount
    requires PayFirst(books, uid, expected, wanted, n + 1) == Ok(Batch(paid.books, SumOf(wanted[..n]) + paid.receipt.amount))
    ensures PaysInTurn(books, uid, expected, wanted, n + 1)
  {
    NextFlight(uid, expected, wanted, n);
  }

  lemma RecordStep(s: System, run: seq<Action>, uid: string)
    requires Inv(s) && Legal(s, run)
    requires var t := After(s, run); uid in t.open && t.open.Keys == {uid} && t.open[uid].next < |t.open[uid].wanted| && NextPayment(t, uid).Ok?
    ensures Legal(s, run + [Record(uid)])
    ensures var t := After(s, run); After(s, run + [Record(uid)]) == t.(open := t.open[uid := Extended(uid, t.open[uid])])
  {
    var t := After(s, run);
    RunKeepsInv(s, run);
    PaymentIsEnabled(t, uid);
    RecordAppends(t, uid);
    OneMoreStep(s, run, Record(uid));
  }

  lemma NextRuns(s: System, uid: string, allocations: seq<Portion>, expected: Option<int>, wanted: seq<Portion>, n: nat)
    requires Inv(s) && n < |wanted| && RunsInTurn(s, uid, allocations, expected, wanted, n)
    requires PaymentOf(s.books, uid, Flight(uid, expected, wanted, n)).Ok?
    ensures RunsInTurn(s, uid, allocations, expected, wanted, n + 1)
  {
    var run := Steps(uid, allocations, expected, n);
    var t, f := After(s, run), Flight(uid, expected, wanted, n);
    assert t.open.Keys == {uid} && t.open[uid] == f;
    SamePayment(s, t, uid, f);
    RecordStep(s, run, uid);
    LongerRun(s, t, uid, allocations, expected, wanted, n);
  }

  lemma SamePayment(s: System, t: System, uid: string, f: InFlight)
    requires t == s.(open := map[uid := f]) && f.next < |f.wanted|
    ensures NextPayment(t, uid) == PaymentOf(s.books, uid, f)
  {
  }

  lemma LongerRun(s: System, t: System, uid: string, allocations: seq<Portion>, expected: Option<int>,
                  wanted: seq<Portion>, n: nat)
    requires n < |wanted| && t == s.(open := map[uid := Flight(uid, expected, wanted, n)])
    requires Legal(s, Steps(uid, allocations, expected, n) + [Record(uid)])
    requires After(s, Steps(uid, allocations, expected, n) + [Record(uid)]) == t.(open := t.open[uid := Extended(uid, t.open[uid])])
    ensures RunsInTurn(s, uid, allocations, expected, wanted, n + 1)
  {
    StepsGrow(uid, allocations, expected, n);
    FlightGrows(s, t, uid, expected, wanted, n);
  }

  lemma StepsGrow(uid: string, allocations: seq<Portion>, expected: Option<int>, n: nat)
    ensures Steps(uid, allocations, expected, n + 1) == Steps(uid, allocations, expected, n) + [Record(uid)]
  {
  }

  lemma FlightGrows(s: System, t: System, uid: string, expected: Option<int>, wanted: seq<Portion>, n: nat)
    requires n < |wanted| && t == s.(open := map[uid := Flight(uid, expected, wanted, n)])
    ensures t.(open := t.open[uid := Extended(uid, t.open[uid])]) == s.(open := map[uid := Flight(uid, expected, wanted, n + 1)])
  {
    NextFlight(uid, expected, wanted, n);
    assert t.open[uid := Extended(uid, t.open[uid])] == map[uid := Flight(uid, expected, wanted, n + 1)];
  }

  lemma FirstRuns(s: System, uid: string, allocations: seq<Portion>, expected: Option<int>, wanted: seq<Portion>)
    requires s.open == map[] && Check(s.books, uid, allocations, expected) == Ok(wanted)
    ensures RunsInTurn(s, uid, allocations, expected, wanted, 0)
  {
    var run := Steps(uid, allocations, expected, 0);
    OneMoreStep(s, [], run[0]);
    assert [] + [run[0]] == run;
    assert ReceiptsFor(uid, expected, wanted[..0]) == [];
  }

  lemma AnotherPaid(books: Books, uid: string, expected: Option<int>, wanted: seq<Portion>, n: nat)
    requires n < |wanted| && PaysInTurn(books, uid, expected, wanted, n)
    requires Posted(books, uid, Flight(uid, expected, wanted, n))
    requires PayFirst(books, uid, expected, wanted, n + 1).Ok?
    ensures PaymentOf(books, uid, Flight(uid, expected, wanted, n)).Ok?
    ensures PaysInTurn(books, uid, expected, wanted, n + 1)
  {
    var f := Flight(uid, expected, wanted, n);
    NextIsPayable(books, uid, expected, wanted, n);
    NextPays(books, uid, expected, wanted, n, PaymentOf(books, uid, f).value);
  }

  lemma FlightIsOk(s: System, uid: string, allocations: seq<Portion>, expected: Option<int>, wanted: seq<Portion>, n: nat)
    requires Inv(s) && n <= |wanted| && RunsInTurn(s, uid, allocations, expected, wanted, n)
    ensures n < |wanted| ==> Posted(s.books, uid, Flight(uid, expected, wanted, n))
  {
    var t := After(s, Steps(uid, allocations, expected, n));
    RunKeepsInv(s, Steps(uid, allocations, expected, n));
    assert FlightOk(t.books, uid, t.open[uid]);
    if n < |wanted| {
      PaymentPosts(s.books, uid, Flight(uid, expected, wanted, n));
    }
  }

  /** One more payment of both, the service and the machine. */
  lemma NextInTurn(s: System, uid: string, allocations: seq<Portion>, expected: Option<int>, wanted: seq<Portion>, n: nat)
    requires Inv(s) && n < |wanted| && PayFirst(s.books, uid, expected, wanted, n + 1).Ok?
    requires RunsInTurn(s, uid, allocations, expected, wanted, n) && PaysInTurn(s.books, uid, expected, wanted, n)
    ensures RunsInTurn(s, uid, allocations, expected, wanted, n + 1) && PaysInTurn(s.books, uid, expected, wanted, n + 1)
  {
    FlightIsOk(s, uid, allocations, expected, wanted, n);
    AnotherPaid(s.books, uid, expected, wanted, n);
    NextRuns(s, uid, allocations, expected, wanted, n);
  }

  lemma {:induction false} AllInTurn(s: System, uid: string, allocations: seq<Portion>, expected: Option<int>, wanted: seq<Portion>, n: nat)
    requires Inv(s) && RunsInTurn(s, uid, allocations, expected, wanted, 0)
    requires n <= |wanted| && PayFirst(s.books, uid, expected, wanted, n).Ok?
    ensures RunsInTurn(s, uid, allocations, expected, wanted, n) && PaysInTurn(s.books, uid, expected, wanted, n)
  {
    if n == 0 {
      assert ReceiptsFor(uid, expected, wanted[..0]) == [];
    } else {
      var m := n - 1;
      PaymentsInTurn(s.books, uid, expected, wanted, m);
      AllInTurn(s, uid, allocations, expected, wanted, m);
      NextInTurn(s, uid, allocations, expected, wanted, m);
    }
  }

  lemma CommitIsAStep(t: System, uid: string, f: InFlight)
    requires t.open == map[uid := f] && f.next == |f.wanted|
    ensures Enabled(t, Commit(uid)) && Apply(t, Commit(uid)).books == PostAll(t.books, f.pending)
  {
  }

  /** A call of the service that succeeds is one run of the machine, and confirms just the split
      the owner approved. */
  lemma ConfirmIsARun(s: System, uid: string, allocations: seq<Portion>, expected: Option<int>)
    requires Inv(s) && s.open == map[] && Confirm(s.books, uid, allocations, expected).Ok?
    ensures var wanted := PositivePart(allocations);
            var run := Steps(uid, allocations, expected, |wanted|) + [Commit(uid)];
            var batch := Confirm(s.books, uid, allocations, expected).value;
            && Legal(s, run) && After(s, run).books == batch.books
            && batch.total == SumOf(wanted)
            && Confirmed(batch.books.receipts, uid) == Confirmed(s.books.receipts, uid) + batch.total
  {
    var wanted := PositivePart(allocations);
    assert Check(s.books, uid, allocations, expected) == Ok(wanted);
    RunOfBatch(s, uid, allocations, expected, wanted);
  }

  lemma RunOfBatch(s: System, uid: string, allocations: seq<Portion>, expected: Option<int>, wanted: seq<Portion>)
    requires Inv(s) && s.open == map[] && Check(s.books, uid, allocations, expected) == Ok(wanted)
    requires PayAll(s.books, uid, expected, wanted).Ok?
    ensures var run := Steps(uid, allocations, expected, |wanted|) + [Commit(uid)];
            var batch := PayAll(s.books, uid, expected, wanted).value;
            && Legal(s, run) && After(s, run).books == batch.books
            && batch.total == SumOf(wanted)
            && Confirmed(batch.books.receipts, uid) == Confirmed(s.books.receipts, uid) + batch.total
  {
    var n, run := |wanted|, Steps(uid, allocations, expected, |wanted|);
    assert wanted[..n] == wanted;
    FirstRuns(s, uid, allocations, expected, wanted);
    AllInTurn(s, uid, allocations, expected, wanted, n);
    var t, f := After(s, run), Flight(uid, expected, wanted, n);
    RunKeepsInv(s, run);
    assert t.open == map[uid := f];
    CommitIsAStep(t, uid, f);
    OneMoreStep(s, run, Commit(uid));
    assert FlightOk(t.books, uid, f);
    CommitReceipts(t.books, uid, f);
    BatchConfirms(s.books.receipts, uid, expected, wanted, uid);
  }
}
