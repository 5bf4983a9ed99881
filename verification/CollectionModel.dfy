/** Confirming the cash that staff collected: the check of an approval and its payment. */
module CollectionModel {
  import opened Wrappers
  import opened CollectionKeys

  const COLLECT := "payment_collect"

  datatype Status = Pending | Done | Cancelled

  /** A field task, with the bills it carries and the billing customer of its shop. */
  datatype Task = Task(kind: string, status: Status, collected: int, linked: set<nat>, customer: Option<nat>)

  /** A bill, in paise.  `credited` is what its credit notes take off, `opening` what was paid
      before its first receipt; a closed bill is cancelled, void or a draft. */
  datatype Bill = Bill(customer: Option<nat>, creditNote: bool, closed: bool,
                       total: int, credited: int, opening: int, paid: int)

  datatype Receipt = Receipt(key: Option<string>, bill: nat, amount: int)

  /** An amount for a bill. */
  datatype Portion = Portion(bill: nat, amount: int)

  datatype Books = Books(tasks: map<string, Task>, bills: map<nat, Bill>, receipts: seq<Receipt>)

  datatype Refusal =
    | NotFound
    | AlreadyRecorded
    | CollectionChanged
    | NothingWanted
    | BillTwice
    | CannotTake(bill: nat)
    | OnlyDue(bill: nat)
    | OverCollection
    | PaymentRefused

  function Positive(x: int): nat {
    if x > 0 then x else 0
  }

  function Due(b: Bill): nat {
    Positive(b.total - b.paid)
  }

  function SumOf(ps: seq<Portion>): int {
    if ps == [] then 0 else SumOf(ps[..|ps| - 1]) + ps[|ps| - 1].amount
  }

  predicate Names(ps: seq<Portion>, bill: nat) {
    exists i :: 0 <= i < |ps| && ps[i].bill == bill
  }

  predicate DistinctBills(ps: seq<Portion>) {
    forall i, j :: 0 <= i < j < |ps| ==> ps[i].bill != ps[j].bill
  }

  // ---- what is already recorded for a collection ----

  function AddTo(used: seq<Portion>, bill: nat, amount: int): seq<Portion> {
    if used == [] then [Portion(bill, amount)]
    else
      var n := |used| - 1;
      if used[n].bill == bill then used[n := Portion(bill, used[n].amount + amount)]
      else AddTo(used[..n], bill, amount) + [used[n]]
  }

  /** Per bill, the amount recorded so far with keys of the collection. */
  function Recorded(receipts: seq<Receipt>, uid: string): seq<Portion> {
    if receipts == [] then []
    else
      var r, used := receipts[|receipts| - 1], Recorded(receipts[..|receipts| - 1], uid);
      if UidOfKey(r.key) == Some(uid) then AddTo(used, r.bill, r.amount) else used
  }

  /** The total of the receipts with keys of the collection. */
  function Confirmed(receipts: seq<Receipt>, uid: string): int {
    if receipts == [] then 0
    else
      var r := receipts[|receipts| - 1];
      Confirmed(receipts[..|receipts| - 1], uid) + if UidOfKey(r.key) == Some(uid) then r.amount else 0
  }

  predicate Used(receipts: seq<Receipt>, uid: string, bill: nat) {
    exists i :: 0 <= i < |receipts| && receipts[i].bill == bill && UidOfKey(receipts[i].key) == Some(uid)
  }

  lemma {:induction false} AddingAddsUp(used: seq<Portion>, bill: nat, amount: int)
    ensures SumOf(AddTo(used, bill, amount)) == SumOf(used) + amount
    ensures forall b :: Names(AddTo(used, bill, amount), b) <==> b == bill || Names(used, b)
  {
    var used' := AddTo(used, bill, amount);
    if used != [] {
      var n := |used| - 1;
      if used[n].bill == bill {
        assert used'[..n] == used[..n];
        assert forall i :: 0 <= i <= n ==> used'[i].bill == used[i].bill;
      } else {
        AddingAddsUp(used[..n], bill, amount);
        var front := AddTo(used[..n], bill, amount);
        assert used'[..|front|] == front;
        forall b
          ensures Names(used', b) <==> b == bill || Names(used, b)
        {
          assert used'[|front|] == used[n];
          assert Names(used', b) <==> Names(front, b) || used[n].bill == b;
          assert Names(used, b) <==> Names(used[..n], b) || used[n].bill == b;
        }
      }
    } else {
      assert used'[..0] == [];
      assert used'[0].bill == bill;
    }
  }

  /** The per-bill record adds up to the one total the other service reads back, and names just
      the bills with a receipt of the collection. */
  lemma {:induction false} ServicesAgree(receipts: seq<Receipt>, uid: string)
    ensures SumOf(Recorded(receipts, uid)) == Confirmed(receipts, uid)
    ensures forall b :: Names(Recorded(receipts, uid), b) <==> Used(receipts, uid, b)
  {
    if receipts != [] {
      var n := |receipts| - 1;
      ServicesAgree(receipts[..n], uid);
      AddingAddsUp(Recorded(receipts[..n], uid), receipts[n].bill, receipts[n].amount);
      forall b
        ensures Used(receipts, uid, b) <==>
          Used(receipts[..n], uid, b) || (receipts[n].bill == b && UidOfKey(receipts[n].key) == Some(uid))
      {
        assert forall i :: 0 <= i < n ==> receipts[..n][i] == receipts[i];
      }
    }
  }

  // ---- checking an approval ----

  /** A bill this collection can pay. */
  predicate Candidate(books: Books, task: Task, used: seq<Portion>, continuing: bool, bill: nat) {
    && bill in books.bills
    && var b := books.bills[bill];
    && !b.creditNote && !b.closed && Due(b) > 0
    && (if task.linked != {} then bill in task.linked else task.customer.Some? && b.customer == task.customer)
    && (continuing || !Names(used, bill))
  }

  function PositivePart(ps: seq<Portion>): (r: seq<Portion>)
    ensures forall i :: 0 <= i < |r| ==> r[i].amount > 0
  {
    if ps == [] then []
    else PositivePart(ps[..|ps| - 1]) + if ps[|ps| - 1].amount > 0 then [ps[|ps| - 1]] else []
  }

  /** A portion for a bill the collection can pay, within what is due on it. */
  predicate Fits(books: Books, task: Task, used: seq<Portion>, continuing: bool, p: Portion) {
    Candidate(books, task, used, continuing, p.bill) && p.amount <= Due(books.bills[p.bill])
  }

  /** The first portion that does not fit its bill. */
  function FirstMisfit(books: Books, task: Task, used: seq<Portion>, continuing: bool, wanted: seq<Portion>): Option<Refusal> {
    if wanted == [] then None
    else
      var p := wanted[0];
      if !Candidate(books, task, used, continuing, p.bill) then Some(CannotTake(p.bill))
      else if p.amount > Due(books.bills[p.bill]) then Some(OnlyDue(p.bill))
      else FirstMisfit(books, task, used, continuing, wanted[1..])
  }

  lemma {:induction false} NoMisfitIff(books: Books, task: Task, used: seq<Portion>, continuing: bool, wanted: seq<Portion>)
    ensures FirstMisfit(books, task, used, continuing, wanted) == None <==>
            forall i :: 0 <= i < |wanted| ==> Fits(books, task, used, continuing, wanted[i])
  {
    if wanted != [] {
      NoMisfitIff(books, task, used, continuing, wanted[1..]);
      assert wanted == [wanted[0]] + wanted[1..];
    }
  }

  /** The portions to record, or why the approval does not fit. */
  function Check(books: Books, uid: string, allocations: seq<Portion>, expected: Option<int>)
    : (r: Result<seq<Portion>, Refusal>)
    ensures r.Ok? ==> r.value == PositivePart(allocations)
  {
    if uid !in books.tasks then Err(NotFound)
    else
      var task := books.tasks[uid];
      if task.kind != COLLECT || task.status != Done || task.collected <= 0 then Err(NotFound)
      else
        var used := Recorded(books.receipts, uid);
        var confirmed := SumOf(used);
        var remaining := task.collected - confirmed;
        if remaining <= 0 then Err(AlreadyRecorded)
        else if expected.Some? && expected.value != confirmed then Err(CollectionChanged)
        else
          var wanted := PositivePart(allocations);
          if wanted == [] then Err(NothingWanted)
          else if !DistinctBills(wanted) then Err(BillTwice)
          else
            var misfit := FirstMisfit(books, task, used, expected.Some?, wanted);
            if misfit.Some? then Err(misfit.value)
            else if SumOf(wanted) > remaining then Err(OverCollection)
            else Ok(wanted)
  }

  // ---- recording a payment ----

  /** Where a key was used first. */
  function FirstUse(receipts: seq<Receipt>, key: string): (i: nat)
    ensures i <= |receipts| && (i < |receipts| ==> receipts[i].key == Some(key))
  {
    if receipts == [] || receipts[0].key == Some(key) then 0 else 1 + FirstUse(receipts[1..], key)
  }

  lemma {:induction false} NoUseBefore(receipts: seq<Receipt>, key: string, j: nat)
    requires j < FirstUse(receipts, key)
    ensures receipts[j].key != Some(key)
  {
    if j > 0 {
      NoUseBefore(receipts[1..], key, j - 1);
    }
  }

  /** A receipt must not take a bill past what it is worth after its credit notes. */
  predicate Payable(bills: map<nat, Bill>, bill: nat, amount: int) {
    && amount > 0 && bill in bills && !bills[bill].creditNote
    && (bills[bill].total >= 0 ==> bills[bill].paid + amount <= Positive(bills[bill].total - bills[bill].credited))
  }

  function Post(books: Books, r: Receipt): Books {
    books.(receipts := books.receipts + [r],
           bills := if r.bill !in books.bills then books.bills
                    else books.bills[r.bill := books.bills[r.bill].(paid := books.bills[r.bill].paid + r.amount)])
  }

  /** The books after a payment, and its receipt. */
  datatype Paid = Paid(books: Books, receipt: Receipt)

  /** The receipt of a used key, or else a new one, which adds to what the bill has been paid. */
  function RecordPayment(books: Books, bill: nat, amount: int, key: string): Result<Paid, Refusal> {
    var i := FirstUse(books.receipts, key);
    if amount <= 0 then Err(PaymentRefused)
    else if i < |books.receipts| then Ok(Paid(books, books.receipts[i]))
    else if !Payable(books.bills, bill, amount) then Err(PaymentRefused)
    else
      var r := Receipt(Some(key), bill, amount);
      Ok(Paid(Post(books, r), r))
  }

  datatype Batch = Batch(books: Books, total: int)

  /** The first portions recorded one after the other, up to the first refusal. */
  function PayFirst(books: Books, uid: string, expected: Option<int>, wanted: seq<Portion>, n: nat): Result<Batch, Refusal>
    requires n <= |wanted|
  {
    if n == 0 then Ok(Batch(books, 0))
    else
      var p, before := wanted[n - 1], PayFirst(books, uid, expected, wanted, n - 1);
      if before.Err? then before
      else
        var paid := RecordPayment(before.value.books, p.bill, p.amount, CollectionKey(uid, p.bill, expected));
        if paid.Err? then Err(paid.error)
        else Ok(Batch(paid.value.books, before.value.total + paid.value.receipt.amount))
  }

  function PayAll(books: Books, uid: string, expected: Option<int>, wanted: seq<Portion>): Result<Batch, Refusal> {
    PayFirst(books, uid, expected, wanted, |wanted|)
  }

  /** An approval: all its payments, or none. */
  function Confirm(books: Books, uid: string, allocations: seq<Portion>, expected: Option<int>): Result<Batch, Refusal> {
    var wanted := Check(books, uid, allocations, expected);
    if wanted.Err? then Err(wanted.error) else PayAll(books, uid, expected, wanted.value)
  }

  // ---- the service ----

  lemma {:induction false} PrefixesPay(books: Books, uid: string, expected: Option<int>, wanted: seq<Portion>, n: nat, m: nat)
    requires n <= m <= |wanted| && PayFirst(books, uid, expected, wanted, n).Err?
    ensures PayFirst(books, uid, expected, wanted, m) == PayFirst(books, uid, expected, wanted, n)
  {
    if n < m {
      PrefixesPay(books, uid, expected, wanted, n, m - 1);
    }
  }

  class BillingService {
    var tasks: map<string, Task>
    var bills: map<nat, Bill>
    var receipts: seq<Receipt>

    function State(): Books
      reads this
    {
      Books(tasks, bills, receipts)
    }

    constructor (books: Books)
      ensures State() == books
    {
      tasks, bills, receipts := books.tasks, books.bills, books.receipts;
    }

    method ReadRecorded(uid: string) returns (used: seq<Portion>)
      ensures used == Recorded(receipts, uid)
    {
      used := [];
      for i := 0 to |receipts|
        invariant used == Recorded(receipts[..i], uid)
      {
        assert receipts[..i + 1][..i] == receipts[..i];
        if UidOfKey(receipts[i].key) == Some(uid) {
          used := AddTo(used, receipts[i].bill, receipts[i].amount);
        }
      }
      assert receipts[..|receipts|] == receipts;
    }

    method ReadConfirmed(uid: string) returns (confirmed: int)
      ensures confirmed == Confirmed(receipts, uid)
    {
      var used := ReadRecorded(uid);
      ServicesAgree(receipts, uid);
      return SumOf(used);
    }

    method Record(bill: nat, amount: int, key: string) returns (r: Result<Receipt, Refusal>)
      modifies this
      ensures match RecordPayment(old(State()), bill, amount, key)
              case Ok(paid) => r == Ok(paid.receipt) && State() == paid.books
              case Err(e) => r == Err(e) && State() == old(State())
    {
      if amount <= 0 {
        return Err(PaymentRefused);
      }
      var i := FirstUse(receipts, key);
      if i < |receipts| {
        return Ok(receipts[i]);
      }
      if !Payable(bills, bill, amount) {
        return Err(PaymentRefused);
      }
      var receipt := Receipt(Some(key), bill, amount);
      receipts := receipts + [receipt];
      bills := bills[bill := bills[bill].(paid := bills[bill].paid + amount)];
      return Ok(receipt);
    }

    /** Records the `n`th portion, once those before it are recorded. */
    method RecordNext(ghost start: Books, uid: string, wanted: seq<Portion>, expected: Option<int>, n: nat, total: int)
      returns (r: Result<int, Refusal>)
      requires n < |wanted| && PayFirst(start, uid, expected, wanted, n) == Ok(Batch(State(), total))
      modifies this
      ensures r.Ok? ==> PayFirst(start, uid, expected, wanted, n + 1) == Ok(Batch(State(), r.value))
      ensures r.Err? ==> PayFirst(start, uid, expected, wanted, n + 1) == Err(r.error)
    {
      var p := wanted[n];
      var paid := Record(p.bill, p.amount, CollectionKey(uid, p.bill, expected));
      return if paid.Ok? then Ok(total + paid.value.amount) else Err(paid.error);
    }

    /** Records the portions up to the first refusal, which it passes on. */
    method RecordBatch(uid: string, wanted: seq<Portion>, expected: Option<int>) returns (r: Result<int, Refusal>)
      modifies this
      ensures r.Ok? ==> PayAll(old(State()), uid, expected, wanted) == Ok(Batch(State(), r.value))
      ensures r.Err? ==> PayAll(old(State()), uid, expected, wanted) == Err(r.error)
    {
      ghost var start := State();
      var n := 0;
      r := Ok(0);
      while n < |wanted| && r.Ok?
        invariant 0 <= n <= |wanted|
        invariant r.Ok? ==> PayFirst(start, uid, expected, wanted, n) == Ok(Batch(State(), r.value))
        invariant r.Err? ==> PayFirst(start, uid, expected, wanted, n) == Err(r.error)
      {
        r := RecordNext(start, uid, wanted, expected, n, r.value);
        n := n + 1;
      }
      if r.Err? {
        PrefixesPay(start, uid, expected, wanted, n, |wanted|);
      }
    }

    /** All the portions, or none. */
    method RecordOrRollBack(uid: string, wanted: seq<Portion>, expected: Option<int>) returns (r: Result<int, Refusal>)
      modifies this
      ensures match PayAll(old(State()), uid, expected, wanted)
              case Ok(batch) => r == Ok(batch.total) && State() == batch.books
              case Err(e) => r == Err(e) && State() == old(State())
    {
      var savepoint := State();
      r := RecordBatch(uid, wanted, expected);
      if r.Err? {
        tasks, bills, receipts := savepoint.tasks, savepoint.bills, savepoint.receipts;
      }
    }

    /** Gives the total confirmed so far. */
    method Approve(uid: string, wanted: seq<Portion>, expected: Option<int>) returns (r: Result<int, Refusal>)
      modifies this
      ensures var paid := PayAll(old(State()), uid, expected, wanted);
              && (paid.Ok? ==> r == Ok(Confirmed(old(receipts), uid) + paid.value.total) && State() == paid.value.books)
              && (paid.Err? ==> r == Err(paid.error) && State() == old(State()))
    {
      ghost var paid := PayAll(State(), uid, expected, wanted);
      var confirmed := ReadConfirmed(uid);
      r := RecordOrRollBack(uid, wanted, expected);
      assert paid.Ok? ==> r == Ok(paid.value.total) && State() == paid.value.books;
      if r.Ok? {
        r := Ok(confirmed + r.value);
      }
    }

    /** Gives the total confirmed so far; a refusal leaves everything as it was. */
    method ConfirmCollection(uid: string, allocations: seq<Portion>, expected: Option<int>)
      returns (r: Result<int, Refusal>)
      modifies this
      ensures Confirm(old(State()), uid, allocations, expected).Err? ==>
                State() == old(State()) && r == Err(Confirm(old(State()), uid, allocations, expected).error)
      ensures Confirm(old(State()), uid, allocations, expected).Ok? ==>
                var batch := Confirm(old(State()), uid, allocations, expected).value;
                State() == batch.books && r == Ok(Confirmed(old(receipts), uid) + batch.total)
    {
      var wanted := Check(State(), uid, allocations, expected);
      if wanted.Err? {
        return Err(wanted.error);
      }
      r := Approve(uid, wanted.value, expected);
    }
  }
}
