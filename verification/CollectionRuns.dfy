/** Approvals of many collections at once, with other payments between their steps: each
    collected rupee is booked once. */
module CollectionRuns {
  import opened Wrappers
  import opened CollectionKeys
  import opened CollectionModel

  /** An approval under way: it holds its task's lock, and the locks of the bills it has paid. */
  datatype InFlight = InFlight(expected: Option<int>, wanted: seq<Portion>, next: nat, pending: seq<Receipt>)

  /** A committed approval. */
  datatype Approval = Approval(uid: string, expected: Option<int>, wanted: seq<Portion>)

  datatype System = System(books: Books, open: map<string, InFlight>, approvals: seq<Approval>)

  datatype Action =
    | Open(uid: string, allocations: seq<Portion>, expected: Option<int>)
    | Record(uid: string)
    | Commit(uid: string)
    | Abort(uid: string)
    | Pay(receipt: Receipt)
    | Edit(bill: nat, now: Bill)
    | Retask(uid: string, task: Task)

  function PostAll(books: Books, rs: seq<Receipt>): Books {
    if rs == [] then books else Post(PostAll(books, rs[..|rs| - 1]), rs[|rs| - 1])
  }

  /** The books as the transaction of an approval sees them. */
  function View(s: System, uid: string): Books
    requires uid in s.open
  {
    PostAll(s.books, s.open[uid].pending)
  }

  predicate Holds(f: InFlight, bill: nat) {
    exists i :: 0 <= i < |f.pending| && f.pending[i].bill == bill
  }

  predicate Free(s: System, bill: nat, except: Option<string>) {
    forall u :: u in s.open && Some(u) != except ==> !Holds(s.open[u], bill)
  }

  function NextKey(s: System, uid: string): string
    requires uid in s.open && s.open[uid].next < |s.open[uid].wanted|
  {
    CollectionKey(uid, s.open[uid].wanted[s.open[uid].next].bill, s.open[uid].expected)
  }

  /** The outcome of the next payment of an approval. */
  function NextPayment(s: System, uid: string): Result<Paid, Refusal>
    requires uid in s.open && s.open[uid].next < |s.open[uid].wanted|
  {
    var p := s.open[uid].wanted[s.open[uid].next];
    RecordPayment(View(s, uid), p.bill, p.amount, NextKey(s, uid))
  }

  /** An approval after its next payment: with one more receipt, unless the key was used before. */
  function AfterPayment(s: System, uid: string): InFlight
    requires uid in s.open && s.open[uid].next < |s.open[uid].wanted| && NextPayment(s, uid).Ok?
  {
    var f, receipts := s.open[uid], View(s, uid).receipts;
    var isNew := FirstUse(receipts, NextKey(s, uid)) == |receipts|;
    f.(next := f.next + 1, pending := if isNew then f.pending + [NextPayment(s, uid).value.receipt] else f.pending)
  }

  /** Other payments carry no collection key; bills are edited only by whoever can lock them, and
      neither payments nor openings are edited; a task that is done stays as it is. */
  predicate Enabled(s: System, a: Action) {
    match a
    case Open(uid, allocations, expected) => uid !in s.open && Check(s.books, uid, allocations, expected).Ok?
    case Record(uid) =>
      && uid in s.open && s.open[uid].next < |s.open[uid].wanted|
      && Free(s, s.open[uid].wanted[s.open[uid].next].bill, Some(uid))
      && NextPayment(s, uid).Ok?
    case Commit(uid) => uid in s.open && s.open[uid].next == |s.open[uid].wanted|
    case Abort(uid) => uid in s.open
    case Pay(r) =>
      && UidOfKey(r.key) == None && r.bill in s.books.bills && Free(s, r.bill, None)
      && (r.key.Some? ==> FirstUse(s.books.receipts, r.key.value) == |s.books.receipts|)
    case Edit(b, now) =>
      && Free(s, b, None)
      && now.opening == (if b in s.books.bills then s.books.bills[b].opening else now.paid)
      && (b in s.books.bills ==> now.paid == s.books.bills[b].paid)
    case Retask(uid, _) => |uid| == UID_LENGTH && (uid in s.books.tasks ==> s.books.tasks[uid].status != Done)
  }

  function Apply(s: System, a: Action): System
    requires Enabled(s, a)
  {
    match a
    case Open(uid, allocations, expected) =>
      s.(open := s.open[uid := InFlight(expected, Check(s.books, uid, allocations, expected).value, 0, [])])
    case Record(uid) => s.(open := s.open[uid := AfterPayment(s, uid)])
    case Commit(uid) =>
      System(PostAll(s.books, s.open[uid].pending), s.open - {uid},
             s.approvals + [Approval(uid, s.open[uid].expected, s.open[uid].wanted)])
    case Abort(uid) => s.(open := s.open - {uid})
    case Pay(r) => s.(books := Post(s.books, r))
    case Edit(b, now) => s.(books := s.books.(bills := s.books.bills[b := now]))
    case Retask(uid, task) => s.(books := s.books.(tasks := s.books.tasks[uid := task]))
  }

  ghost predicate Legal(s: System, run: seq<Action>)
    decreases |run|, 0
  {
    run == [] || (Legal(s, run[..|run| - 1]) && Enabled(After(s, run[..|run| - 1]), run[|run| - 1]))
  }

  ghost function After(s: System, run: seq<Action>): System
    requires Legal(s, run)
    decreases |run|, 1
  {
    if run == [] then s else Apply(After(s, run[..|run| - 1]), run[|run| - 1])
  }

  lemma OneMoreStep(s: System, run: seq<Action>, a: Action)
    requires Legal(s, run) && Enabled(After(s, run), a)
    ensures Legal(s, run + [a]) && After(s, run + [a]) == Apply(After(s, run), a)
  {
    assert (run + [a])[..|run|] == run;
  }

  // ---- what every step keeps ----

  predicate Collecting(tasks: map<string, Task>, uid: string) {
    uid in tasks && tasks[uid].kind == COLLECT && tasks[uid].status == Done && tasks[uid].collected > 0
  }

  function Cap(tasks: map<string, Task>, uid: string): int {
    if Collecting(tasks, uid) then tasks[uid].collected else 0
  }

  function SumOn(rs: seq<Receipt>, bill: nat): int {
    if rs == [] then 0 else SumOn(rs[..|rs| - 1], bill) + if rs[|rs| - 1].bill == bill then rs[|rs| - 1].amount else 0
  }

  /** What the committed approvals of a collection add up to, and how many there are. */
  function Approved(approvals: seq<Approval>, uid: string): int {
    if approvals == [] then 0
    else
      var a := approvals[|approvals| - 1];
      Approved(approvals[..|approvals| - 1], uid) + if a.uid == uid then SumOf(a.wanted) else 0
  }

  function Batches(approvals: seq<Approval>, uid: string): nat {
    if approvals == [] then 0
    else Batches(approvals[..|approvals| - 1], uid) + if approvals[|approvals| - 1].uid == uid then 1 else 0
  }

  ghost predicate KeysDiffer(rs: seq<Receipt>) {
    forall i, j :: 0 <= i < j < |rs| && rs[i].key.Some? ==> rs[i].key != rs[j].key
  }

  /** A receipt of a collection carries the key of its bill and of a checkpoint the collection has
      since moved past. */
  ghost predicate WellKeyed(books: Books, r: Receipt) {
    var uid := UidOfKey(r.key);
    uid.Some? ==>
      && |uid.value| == UID_LENGTH && r.amount > 0 && Collecting(books.tasks, uid.value)
      && exists c :: 0 <= c < Confirmed(books.receipts, uid.value) && r.key.value == CollectionKey(uid.value, r.bill, Some(c))
  }

  ghost predicate LedgerOk(books: Books) {
    && KeysDiffer(books.receipts)
    && (forall i :: 0 <= i < |books.receipts| ==> WellKeyed(books, books.receipts[i]))
    && (forall uid :: 0 <= Confirmed(books.receipts, uid) <= Cap(books.tasks, uid))
    && (forall uid :: uid in books.tasks ==> |uid| == UID_LENGTH)
  }

  ghost predicate Conserved(books: Books) {
    && (forall i :: 0 <= i < |books.receipts| ==> books.receipts[i].bill in books.bills)
    && forall b :: b in books.bills ==> books.bills[b].paid == books.bills[b].opening + SumOn(books.receipts, b)
  }

  /** Committed approvals account for all that is confirmed, and cannot be repeated. */
  ghost predicate ApprovalOk(books: Books, a: Approval) {
    && a.wanted != []
    && (a.expected.Some? ==> a.expected.value < Confirmed(books.receipts, a.uid))
    && forall i :: 0 <= i < |a.wanted| ==> Used(books.receipts, a.uid, a.wanted[i].bill)
  }

  ghost predicate Accounted(s: System) {
    && (forall uid :: Confirmed(s.books.receipts, uid) == Approved(s.approvals, uid))
    && (forall uid :: Batches(s.approvals, uid) <= Approved(s.approvals, uid))
    && (forall i :: 0 <= i < |s.approvals| ==> ApprovalOk(s.books, s.approvals[i]))
  }

  function ReceiptsFor(uid: string, expected: Option<int>, ps: seq<Portion>): seq<Receipt> {
    seq(|ps|, i requires 0 <= i < |ps| => Receipt(Some(CollectionKey(uid, ps[i].bill, expected)), ps[i].bill, ps[i].amount))
  }

  ghost predicate FlightOk(books: Books, uid: string, f: InFlight) {
    && |uid| == UID_LENGTH && Collecting(books.tasks, uid)
    && f.next <= |f.wanted| && f.wanted != [] && DistinctBills(f.wanted)
    && (forall i :: 0 <= i < |f.wanted| ==> f.wanted[i].amount > 0 && f.wanted[i].bill in books.bills)
    && Confirmed(books.receipts, uid) + SumOf(f.wanted) <= books.tasks[uid].collected
    && (f.expected.Some? ==> f.expected.value == Confirmed(books.receipts, uid))
    && (f.expected.None? ==> forall i :: 0 <= i < |f.wanted| ==> !Used(books.receipts, uid, f.wanted[i].bill))
    && f.pending == ReceiptsFor(uid, f.expected, f.wanted[..f.next])
  }

  ghost predicate FlightsOk(s: System) {
    forall uid :: uid in s.open ==> FlightOk(s.books, uid, s.open[uid])
  }

  ghost predicate Inv(s: System) {
    LedgerOk(s.books) && Conserved(s.books) && Accounted(s) && FlightsOk(s)
  }

  // ---- sums ----

  lemma {:induction false} SumsSplit(a: seq<Receipt>, b: seq<Receipt>, uid: string, bill: nat)
    ensures Confirmed(a + b, uid) == Confirmed(a, uid) + Confirmed(b, uid)
    ensures SumOn(a + b, bill) == SumOn(a, bill) + SumOn(b, bill)
  {
    if b == [] {
      assert a + b == a;
    } else {
      SumsSplit(a, b[..|b| - 1], uid, bill);
      assert (a + b)[..|a + b| - 1] == a + b[..|b| - 1];
    }
  }

  lemma PostingOne(books: Books, r: Receipt)
    requires r.bill in books.bills
    ensures Post(books, r).receipts == books.receipts + [r]
    ensures Post(books, r).tasks == books.tasks && Post(books, r).bills.Keys == books.bills.Keys
    ensures forall b :: b in books.bills ==>
              Post(books, r).bills[b] == books.bills[b].(paid := books.bills[b].paid + if b == r.bill then r.amount else 0)
  {
  }

  lemma {:induction false} PostingAppends(books: Books, rs: seq<Receipt>)
    requires forall i :: 0 <= i < |rs| ==> rs[i].bill in books.bills
    ensures PostAll(books, rs).receipts == books.receipts + rs
    ensures PostAll(books, rs).tasks == books.tasks && PostAll(books, rs).bills.Keys == books.bills.Keys
    ensures forall b :: b in books.bills ==>
              PostAll(books, rs).bills[b] == books.bills[b].(paid := books.bills[b].paid + SumOn(rs, b))
  {
    if rs != [] {
      var front, r := rs[..|rs| - 1], rs[|rs| - 1];
      PostingAppends(books, front);
      PostingOne(PostAll(books, front), r);
      assert books.receipts + rs == (books.receipts + front) + [r];
    }
  }

  lemma {:induction false} BatchAddsUp(uid: string, expected: Option<int>, ps: seq<Portion>, other: string)
    requires |uid| == UID_LENGTH
    ensures Confirmed(ReceiptsFor(uid, expected, ps), other) == if other == uid then SumOf(ps) else 0
  {
    if ps != [] {
      var n := |ps| - 1;
      BatchAddsUp(uid, expected, ps[..n], other);
      assert ReceiptsFor(uid, expected, ps)[..n] == ReceiptsFor(uid, expected, ps[..n]);
      UidIsReadBack(uid, ps[n].bill, expected);
    }
  }

  lemma {:induction false} PositivePortionsAddUp(ps: seq<Portion>)
    requires forall i :: 0 <= i < |ps| ==> ps[i].amount > 0
    ensures SumOf(ps) >= |ps|
  {
    if ps != [] {
      PositivePortionsAddUp(ps[..|ps| - 1]);
    }
  }
}
