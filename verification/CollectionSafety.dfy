/** Exactly-once confirmation, over every run. */
module CollectionSafety {
  import opened Wrappers
  import opened CollectionKeys
  import opened CollectionModel
  import opened CollectionRuns

  lemma {:induction false} PositivePartNames(ps: seq<Portion>, p: Portion)
    ensures p in PositivePart(ps) <==> p in ps && p.amount > 0
  {
    if ps != [] {
      PositivePartNames(ps[..|ps| - 1], p);
      assert ps == ps[..|ps| - 1] + [ps[|ps| - 1]];
    }
  }

  /** What a passed check says about the portions. */
  lemma CheckedPortionsFit(books: Books, uid: string, allocations: seq<Portion>, expected: Option<int>)
    requires LedgerOk(books) && Check(books, uid, allocations, expected).Ok?
    ensures FlightOk(books, uid, InFlight(expected, Check(books, uid, allocations, expected).value, 0, []))
  {
    ServicesAgree(books.receipts, uid);
    var wanted := PositivePart(allocations);
    var used := Recorded(books.receipts, uid);
    NoMisfitIff(books, books.tasks[uid], used, expected.Some?, wanted);
    forall i | 0 <= i < |wanted|
      ensures wanted[i].bill in books.bills && (expected.None? ==> !Used(books.receipts, uid, wanted[i].bill))
    {
      assert Fits(books, books.tasks[uid], used, expected.Some?, wanted[i]);
    }
    assert [] == ReceiptsFor(uid, expected, wanted[..0]);
  }

  // ---- no key is ever used twice ----

  lemma OldKeysDiffer(books: Books, uid: string, f: InFlight, bill: nat, i: nat)
    requires LedgerOk(books) && FlightOk(books, uid, f) && Names(f.wanted, bill) && i < |books.receipts|
    ensures books.receipts[i].key != Some(CollectionKey(uid, bill, f.expected))
  {
    var r := books.receipts[i];
    UidIsReadBack(uid, bill, f.expected);
    assert WellKeyed(books, r);
    if r.key == Some(CollectionKey(uid, bill, f.expected)) {
      var c :| 0 <= c < Confirmed(books.receipts, uid) && r.key.value == CollectionKey(uid, r.bill, Some(c));
      KeysNeverCollide(uid, bill, f.expected, uid, r.bill, Some(c));
      assert Used(books.receipts, uid, bill);
    }
  }

  lemma BatchKeyIsNew(books: Books, uid: string, f: InFlight, key: string)
    requires LedgerOk(books) && FlightOk(books, uid, f) && f.next < |f.wanted|
    requires key == CollectionKey(uid, f.wanted[f.next].bill, f.expected)
    ensures FirstUse(books.receipts + f.pending, key) == |books.receipts + f.pending|
  {
    var p, all := f.wanted[f.next], books.receipts + f.pending;
    var i := FirstUse(all, key);
    if i < |books.receipts| {
      assert all[i] == books.receipts[i];
      OldKeysDiffer(books, uid, f, p.bill, i);
    } else if i < |all| {
      var k := i - |books.receipts|;
      assert all[i] == f.pending[k];
      KeysNeverCollide(uid, p.bill, f.expected, uid, f.wanted[k].bill, f.expected);
    }
  }

  lemma FlightKeyIsNew(books: Books, uid: string, f: InFlight)
    requires LedgerOk(books) && FlightOk(books, uid, f) && f.next < |f.wanted|
    ensures var receipts := PostAll(books, f.pending).receipts;
            FirstUse(receipts, CollectionKey(uid, f.wanted[f.next].bill, f.expected)) == |receipts|
  {
    PostingAppends(books, f.pending);
    BatchKeyIsNew(books, uid, f, CollectionKey(uid, f.wanted[f.next].bill, f.expected));
  }

  /** The key of the next payment is used by no receipt its transaction can see. */
  lemma NextKeyIsNew(s: System, uid: string)
    requires Inv(s) && uid in s.open && s.open[uid].next < |s.open[uid].wanted|
    ensures FirstUse(View(s, uid).receipts, NextKey(s, uid)) == |View(s, uid).receipts|
  {
    FlightKeyIsNew(s.books, uid, s.open[uid]);
  }

  // ---- each step ----

  lemma OpenKeepsInv(s: System, a: Action)
    requires Inv(s) && a.Open? && Enabled(s, a)
    ensures Inv(Apply(s, a))
  {
    CheckedPortionsFit(s.books, a.uid, a.allocations, a.expected);
  }

  /** The flight with its next payment made. */
  function Extended(uid: string, f: InFlight): InFlight
    requires f.next < |f.wanted|
  {
    var p := f.wanted[f.next];
    f.(next := f.next + 1, pending := f.pending + [Receipt(Some(CollectionKey(uid, p.bill, f.expected)), p.bill, p.amount)])
  }

  lemma NewReceipt(books: Books, p: Portion, key: string)
    requires FirstUse(books.receipts, key) == |books.receipts| && RecordPayment(books, p.bill, p.amount, key).Ok?
    ensures var r := Receipt(Some(key), p.bill, p.amount);
            RecordPayment(books, p.bill, p.amount, key) == Ok(Paid(Post(books, r), r))
  {
  }

  lemma PaymentExtends(s: System, uid: string)
    requires Inv(s) && uid in s.open && s.open[uid].next < |s.open[uid].wanted| && NextPayment(s, uid).Ok?
    ensures AfterPayment(s, uid) == Extended(uid, s.open[uid])
  {
    NextKeyIsNew(s, uid);
    NewKeyExtends(s, uid);
  }

  lemma NewKeyExtends(s: System, uid: string)
    requires uid in s.open && s.open[uid].next < |s.open[uid].wanted| && NextPayment(s, uid).Ok?
    requires FirstUse(View(s, uid).receipts, NextKey(s, uid)) == |View(s, uid).receipts|
    ensures AfterPayment(s, uid) == Extended(uid, s.open[uid])
  {
    NewReceipt(View(s, uid), s.open[uid].wanted[s.open[uid].next], NextKey(s, uid));
  }

  /** Every payment of an approval appends a receipt of its own. */
  lemma RecordAppends(s: System, uid: string)
    requires Inv(s) && Enabled(s, Record(uid))
    ensures Apply(s, Record(uid)) == s.(open := s.open[uid := Extended(uid, s.open[uid])])
  {
    PaymentExtends(s, uid);
  }

  lemma ExtendedIsOk(books: Books, uid: string, f: InFlight)
    requires FlightOk(books, uid, f) && f.next < |f.wanted|
    ensures FlightOk(books, uid, Extended(uid, f))
  {
    assert Extended(uid, f).pending == ReceiptsFor(uid, f.expected, f.wanted[..f.next + 1]);
  }

  lemma FlightReplaced(s: System, uid: string, f: InFlight)
    requires FlightsOk(s) && FlightOk(s.books, uid, f)
    ensures FlightsOk(s.(open := s.open[uid := f]))
  {
  }

  lemma ExtendedKeepsInv(s: System, uid: string)
    requires Inv(s) && uid in s.open && s.open[uid].next < |s.open[uid].wanted|
    ensures Inv(s.(open := s.open[uid := Extended(uid, s.open[uid])]))
  {
    ExtendedIsOk(s.books, uid, s.open[uid]);
    FlightReplaced(s, uid, Extended(uid, s.open[uid]));
  }

  /** Receipts without a collection key change no collection. */
  lemma OtherReceiptsAreNeutral(rs: seq<Receipt>, r: Receipt)
    requires UidOfKey(r.key) == None
    ensures forall uid :: Confirmed(rs + [r], uid) == Confirmed(rs, uid)
    ensures forall uid, b :: Used(rs + [r], uid, b) <==> Used(rs, uid, b)
  {
    forall uid
      ensures Confirmed(rs + [r], uid) == Confirmed(rs, uid)
    {
      assert (rs + [r])[..|rs|] == rs;
    }
    forall uid, b
      ensures Used(rs + [r], uid, b) <==> Used(rs, uid, b)
    {
      UsedSplits(rs, [r], uid, b);
    }
  }

  lemma UsedSplits(a: seq<Receipt>, b: seq<Receipt>, uid: string, bill: nat)
    ensures Used(a + b, uid, bill) <==> Used(a, uid, bill) || Used(b, uid, bill)
  {
    assert forall i :: 0 <= i < |a| ==> (a + b)[i] == a[i];
    assert forall i :: 0 <= i < |b| ==> (a + b)[|a| + i] == b[i];
  }

  lemma PayKeepsLedger(s: System, a: Action)
    requires Inv(s) && a.Pay? && Enabled(s, a)
    ensures LedgerOk(Apply(s, a).books)
  {
    OtherReceiptsAreNeutral(s.books.receipts, a.receipt);
    var books, books' := s.books, Apply(s, a).books;
    if a.receipt.key.Some? {
      forall j | 0 <= j < |books.receipts|
        ensures books.receipts[j].key != a.receipt.key
      {
        NoUseBefore(books.receipts, a.receipt.key.value, j);
      }
    }
    forall i | 0 <= i < |books'.receipts|
      ensures WellKeyed(books', books'.receipts[i])
    {
      if i < |books.receipts| {
        assert books'.receipts[i] == books.receipts[i] && WellKeyed(books, books.receipts[i]);
      }
    }
  }

  lemma PayKeepsInv(s: System, a: Action)
    requires Inv(s) && a.Pay? && Enabled(s, a)
    ensures Inv(Apply(s, a))
  {
    PayKeepsLedger(s, a);
    OtherReceiptsAreNeutral(s.books.receipts, a.receipt);
    var books, books' := s.books, Apply(s, a).books;
    forall b | b in books'.bills
      ensures books'.bills[b].paid == books'.bills[b].opening + SumOn(books'.receipts, b)
    {
      assert books'.receipts[..|books.receipts|] == books.receipts;
    }
    forall i | 0 <= i < |s.approvals|
      ensures ApprovalOk(books', s.approvals[i])
    {
      assert ApprovalOk(books, s.approvals[i]);
    }
    forall u | u in s.open
      ensures FlightOk(books', u, s.open[u])
    {
      assert FlightOk(books, u, s.open[u]);
    }
  }

  lemma EditKeepsInv(s: System, a: Action)
    requires Inv(s) && a.Edit? && Enabled(s, a)
    ensures Inv(Apply(s, a))
  {
    var s' := Apply(s, a);
    forall i | 0 <= i < |s.books.receipts|
      ensures WellKeyed(s'.books, s'.books.receipts[i])
    {
      assert WellKeyed(s.books, s.books.receipts[i]);
    }
    if a.bill !in s.books.bills {
      NothingOnMissingBills(s.books.receipts, a.bill);
    }
    forall i | 0 <= i < |s.approvals|
      ensures ApprovalOk(s'.books, s.approvals[i])
    {
      assert ApprovalOk(s.books, s.approvals[i]);
    }
    forall u | u in s.open
      ensures FlightOk(s'.books, u, s.open[u])
    {
      assert FlightOk(s.books, u, s.open[u]);
    }
  }

  lemma {:induction false} NothingOnMissingBills(rs: seq<Receipt>, bill: nat)
    requires forall i :: 0 <= i < |rs| ==> rs[i].bill != bill
    ensures SumOn(rs, bill) == 0
  {
    if rs != [] {
      NothingOnMissingBills(rs[..|rs| - 1], bill);
    }
  }

  /** Tasks may change as long as whatever is done stays as it is. */
  ghost predicate KeepsDone(tasks: map<string, Task>, tasks': map<string, Task>) {
    && (forall u :: u in tasks' ==> |u| == UID_LENGTH)
    && forall u :: u in tasks && tasks[u].status == Done ==> u in tasks' && tasks'[u] == tasks[u]
  }

  lemma RetaskKeepsLedger(books: Books, books': Books)
    requires LedgerOk(books) && books'.receipts == books.receipts && KeepsDone(books.tasks, books'.tasks)
    ensures LedgerOk(books')
  {
    forall i | 0 <= i < |books.receipts|
      ensures WellKeyed(books', books'.receipts[i])
    {
      assert WellKeyed(books, books.receipts[i]);
    }
    forall u
      ensures Cap(books.tasks, u) <= Cap(books'.tasks, u)
    {
    }
  }

  lemma RetaskKeepsFlight(books: Books, books': Books, u: string, f: InFlight)
    requires FlightOk(books, u, f) && KeepsDone(books.tasks, books'.tasks)
    requires books'.receipts == books.receipts && books'.bills == books.bills
    ensures FlightOk(books', u, f)
  {
  }

  /** Planning, completing, cancelling and reopening touch neither the ledger nor an approval. */
  lemma RetaskKeepsInv(s: System, tasks: map<string, Task>)
    requires Inv(s) && KeepsDone(s.books.tasks, tasks)
    ensures Inv(s.(books := s.books.(tasks := tasks)))
  {
    var books' := s.books.(tasks := tasks);
    RetaskKeepsLedger(s.books, books');
    SameReceiptsAccount(s, books');
    forall u | u in s.open
      ensures FlightOk(books', u, s.open[u])
    {
      RetaskKeepsFlight(s.books, books', u, s.open[u]);
    }
  }

  lemma SameReceiptsAccount(s: System, books: Books)
    requires Accounted(s) && books.receipts == s.books.receipts
    ensures Accounted(s.(books := books))
  {
    forall i | 0 <= i < |s.approvals|
      ensures ApprovalOk(books, s.approvals[i])
    {
      assert ApprovalOk(s.books, s.approvals[i]);
    }
  }

  // ---- a commit ----

  /** A batch adds its portions to its own collection, and nothing to any other. */
  lemma BatchConfirms(rs: seq<Receipt>, uid: string, expected: Option<int>, ps: seq<Portion>, other: string)
    requires |uid| == UID_LENGTH
    ensures Confirmed(rs + ReceiptsFor(uid, expected, ps), other) ==
            Confirmed(rs, other) + if other == uid then SumOf(ps) else 0
  {
    SumsSplit(rs, ReceiptsFor(uid, expected, ps), other, 0);
    BatchAddsUp(uid, expected, ps, other);
  }

  lemma BatchUses(rs: seq<Receipt>, uid: string, expected: Option<int>, ps: seq<Portion>, other: string, bill: nat)
    requires |uid| == UID_LENGTH
    ensures Used(rs + ReceiptsFor(uid, expected, ps), other, bill) <==>
            Used(rs, other, bill) || (other == uid && Names(ps, bill))
  {
    var batch := ReceiptsFor(uid, expected, ps);
    UsedSplits(rs, batch, other, bill);
    forall i | 0 <= i < |ps|
      ensures UidOfKey(batch[i].key) == Some(uid)
    {
      UidIsReadBack(uid, ps[i].bill, expected);
    }
    if other == uid && Names(ps, bill) {
      var i :| 0 <= i < |ps| && ps[i].bill == bill;
      assert batch[i].bill == bill;
    }
  }

  lemma BatchKeyDiffers(books: Books, uid: string, f: InFlight, batch: seq<Receipt>, i: nat, k: nat)
    requires LedgerOk(books) && FlightOk(books, uid, f) && batch == ReceiptsFor(uid, f.expected, f.wanted)
    requires k < |batch| && i < |books.receipts| + k
    ensures (books.receipts + batch)[i].key != batch[k].key
  {
    var n, p := |books.receipts|, f.wanted[k];
    assert Names(f.wanted, p.bill);
    if i < n {
      OldKeysDiffer(books, uid, f, p.bill, i);
    } else {
      KeysNeverCollide(uid, p.bill, f.expected, uid, f.wanted[i - n].bill, f.expected);
    }
  }

  /** No receipt of a batch has a key that a receipt before it has. */
  lemma BatchKeysDiffer(books: Books, uid: string, f: InFlight, batch: seq<Receipt>)
    requires LedgerOk(books) && FlightOk(books, uid, f) && batch == ReceiptsFor(uid, f.expected, f.wanted)
    ensures KeysDiffer(books.receipts + batch)
  {
    var rs, n := books.receipts + batch, |books.receipts|;
    forall i, j | 0 <= i < j < |rs| && rs[i].key.Some?
      ensures rs[i].key != rs[j].key
    {
      if n <= j {
        BatchKeyDiffers(books, uid, f, batch, i, j - n);
      }
    }
  }

  lemma BatchIsWellKeyed(books: Books, uid: string, f: InFlight, books': Books, i: nat)
    requires FlightOk(books, uid, f) && i < |f.wanted|
    requires books'.receipts == books.receipts + ReceiptsFor(uid, f.expected, f.wanted) && books'.tasks == books.tasks
    requires 0 <= Confirmed(books.receipts, uid)
    ensures WellKeyed(books', ReceiptsFor(uid, f.expected, f.wanted)[i])
  {
    BatchConfirms(books.receipts, uid, f.expected, f.wanted, uid);
    PositivePortionsAddUp(f.wanted);
    var r, p := ReceiptsFor(uid, f.expected, f.wanted)[i], f.wanted[i];
    UidIsReadBack(uid, p.bill, f.expected);
    var c := if f.expected.None? then 0 else f.expected.value;
    KeysNeverCollide(uid, p.bill, f.expected, uid, p.bill, Some(c));
    assert r.key.value == CollectionKey(uid, r.bill, Some(c));
  }

  lemma ReceiptsStayWellKeyed(books: Books, uid: string, f: InFlight, books': Books, r: Receipt)
    requires FlightOk(books, uid, f) && WellKeyed(books, r)
    requires books'.receipts == books.receipts + ReceiptsFor(uid, f.expected, f.wanted) && books'.tasks == books.tasks
    ensures WellKeyed(books', r)
  {
    var u := UidOfKey(r.key);
    if u.Some? {
      BatchConfirms(books.receipts, uid, f.expected, f.wanted, u.value);
      PositivePortionsAddUp(f.wanted);
      var c :| 0 <= c < Confirmed(books.receipts, u.value) && r.key.value == CollectionKey(u.value, r.bill, Some(c));
      assert 0 <= c < Confirmed(books'.receipts, u.value);
    }
  }

  lemma CommitKeepsLedger(books: Books, uid: string, f: InFlight, books': Books)
    requires LedgerOk(books) && FlightOk(books, uid, f)
    requires books'.receipts == books.receipts + ReceiptsFor(uid, f.expected, f.wanted) && books'.tasks == books.tasks
    ensures LedgerOk(books')
  {
    var batch := ReceiptsFor(uid, f.expected, f.wanted);
    BatchKeysDiffer(books, uid, f, batch);
    forall i | 0 <= i < |books'.receipts|
      ensures WellKeyed(books', books'.receipts[i])
    {
      if i < |books.receipts| {
        assert books'.receipts[i] == books.receipts[i];
        ReceiptsStayWellKeyed(books, uid, f, books', books.receipts[i]);
      } else {
        assert books'.receipts[i] == batch[i - |books.receipts|];
        BatchIsWellKeyed(books, uid, f, books', i - |books.receipts|);
      }
    }
    PositivePortionsAddUp(f.wanted);
    forall u
      ensures 0 <= Confirmed(books'.receipts, u) <= Cap(books'.tasks, u)
    {
      BatchConfirms(books.receipts, uid, f.expected, f.wanted, u);
    }
  }

  lemma CommitConserves(books: Books, rs: seq<Receipt>)
    requires Conserved(books) && forall i :: 0 <= i < |rs| ==> rs[i].bill in books.bills
    ensures Conserved(PostAll(books, rs))
  {
    var books' := PostAll(books, rs);
    PostingAppends(books, rs);
    forall b | b in books'.bills
      ensures books'.bills[b].paid == books'.bills[b].opening + SumOn(books'.receipts, b)
    {
      SumsSplit(books.receipts, rs, "", b);
    }
  }

  lemma ApprovalStaysOk(books: Books, uid: string, f: InFlight, books': Books, a: Approval)
    requires FlightOk(books, uid, f) && ApprovalOk(books, a)
    requires books'.receipts == books.receipts + ReceiptsFor(uid, f.expected, f.wanted)
    ensures ApprovalOk(books', a)
  {
    BatchConfirms(books.receipts, uid, f.expected, f.wanted, a.uid);
    PositivePortionsAddUp(f.wanted);
    forall k | 0 <= k < |a.wanted|
      ensures Used(books'.receipts, a.uid, a.wanted[k].bill)
    {
      BatchUses(books.receipts, uid, f.expected, f.wanted, a.uid, a.wanted[k].bill);
    }
  }

  lemma NewApprovalOk(books: Books, uid: string, f: InFlight, books': Books)
    requires FlightOk(books, uid, f)
    requires books'.receipts == books.receipts + ReceiptsFor(uid, f.expected, f.wanted)
    ensures ApprovalOk(books', Approval(uid, f.expected, f.wanted))
  {
    BatchConfirms(books.receipts, uid, f.expected, f.wanted, uid);
    PositivePortionsAddUp(f.wanted);
    forall k | 0 <= k < |f.wanted|
      ensures Used(books'.receipts, uid, f.wanted[k].bill)
    {
      BatchUses(books.receipts, uid, f.expected, f.wanted, uid, f.wanted[k].bill);
    }
  }

  lemma ApprovalCounts(approvals: seq<Approval>, a: Approval, uid: string)
    ensures Approved(approvals + [a], uid) == Approved(approvals, uid) + if a.uid == uid then SumOf(a.wanted) else 0
    ensures Batches(approvals + [a], uid) == Batches(approvals, uid) + if a.uid == uid then 1 else 0
  {
    assert (approvals + [a])[..|approvals|] == approvals;
  }

  lemma CommitAccounts(s: System, uid: string, f: InFlight, s': System)
    requires Accounted(s) && FlightOk(s.books, uid, f)
    requires s'.books.receipts == s.books.receipts + ReceiptsFor(uid, f.expected, f.wanted)
    requires s'.approvals == s.approvals + [Approval(uid, f.expected, f.wanted)]
    ensures Accounted(s')
  {
    PositivePortionsAddUp(f.wanted);
    forall u
      ensures Confirmed(s'.books.receipts, u) == Approved(s'.approvals, u)
      ensures Batches(s'.approvals, u) <= Approved(s'.approvals, u)
    {
      BatchConfirms(s.books.receipts, uid, f.expected, f.wanted, u);
      ApprovalCounts(s.approvals, Approval(uid, f.expected, f.wanted), u);
    }
    ApprovalsStayOk(s, uid, f, s');
  }

  lemma ApprovalsStayOk(s: System, uid: string, f: InFlight, s': System)
    requires FlightOk(s.books, uid, f) && forall i :: 0 <= i < |s.approvals| ==> ApprovalOk(s.books, s.approvals[i])
    requires s'.books.receipts == s.books.receipts + ReceiptsFor(uid, f.expected, f.wanted)
    requires s'.approvals == s.approvals + [Approval(uid, f.expected, f.wanted)]
    ensures forall i :: 0 <= i < |s'.approvals| ==> ApprovalOk(s'.books, s'.approvals[i])
  {
    forall i | 0 <= i < |s'.approvals|
      ensures ApprovalOk(s'.books, s'.approvals[i])
    {
      if i < |s.approvals| {
        ApprovalStaysOk(s.books, uid, f, s'.books, s.approvals[i]);
      } else {
        NewApprovalOk(s.books, uid, f, s'.books);
      }
    }
  }

  lemma FlightStaysOk(books: Books, uid: string, f: InFlight, books': Books, u: string, g: InFlight)
    requires FlightOk(books, uid, f) && FlightOk(books, u, g) && u != uid
    requires books'.receipts == books.receipts + ReceiptsFor(uid, f.expected, f.wanted)
    requires books'.tasks == books.tasks && books'.bills.Keys == books.bills.Keys
    ensures FlightOk(books', u, g)
  {
    BatchConfirms(books.receipts, uid, f.expected, f.wanted, u);
    forall k | 0 <= k < |g.wanted|
      ensures Used(books'.receipts, u, g.wanted[k].bill) <==> Used(books.receipts, u, g.wanted[k].bill)
    {
      BatchUses(books.receipts, uid, f.expected, f.wanted, u, g.wanted[k].bill);
    }
  }

  lemma CommitReceipts(books: Books, uid: string, f: InFlight)
    requires FlightOk(books, uid, f) && f.next == |f.wanted|
    ensures f.pending == ReceiptsFor(uid, f.expected, f.wanted)
    ensures forall i :: 0 <= i < |f.pending| ==> f.pending[i].bill in books.bills
    ensures var books' := PostAll(books, f.pending);
            && books'.receipts == books.receipts + ReceiptsFor(uid, f.expected, f.wanted)
            && books'.tasks == books.tasks && books'.bills.Keys == books.bills.Keys
  {
    assert f.wanted[..f.next] == f.wanted;
    PostingAppends(books, f.pending);
  }

  lemma CommitKeepsInv(s: System, uid: string)
    requires Inv(s) && Enabled(s, Commit(uid))
    ensures Inv(Apply(s, Commit(uid)))
  {
    var f, s' := s.open[uid], Apply(s, Commit(uid));
    assert FlightOk(s.books, uid, f);
    CommitReceipts(s.books, uid, f);
    CommitKeepsLedger(s.books, uid, f, s'.books);
    CommitConserves(s.books, f.pending);
    CommitAccounts(s, uid, f, s');
    forall u | u in s'.open
      ensures FlightOk(s'.books, u, s'.open[u])
    {
      FlightStaysOk(s.books, uid, f, s'.books, u, s.open[u]);
    }
  }

  /** Every step of every transaction, and every other payment, edit and task change, keeps the
      ledger's promises. */
  lemma StepKeepsInv(s: System, a: Action)
    requires Inv(s) && Enabled(s, a)
    ensures Inv(Apply(s, a))
  {
    match a
    case Open(_, _, _) => OpenKeepsInv(s, a);
    case Record(uid) =>
      ExtendedKeepsInv(s, uid);
      RecordAppends(s, uid);
    case Commit(uid) => CommitKeepsInv(s, uid);
    case Abort(_) =>
    case Pay(_) => PayKeepsInv(s, a);
    case Edit(_, _) => EditKeepsInv(s, a);
    case Retask(uid, task) => RetaskKeepsInv(s, s.books.tasks[uid := task]);
  }
}
