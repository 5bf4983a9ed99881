/** Exactly which approvals pass the check, and which refusal the others get. */
module CollectionChecks {
  import opened Wrappers
  import opened CollectionKeys
  import opened CollectionModel

  // ---- the portions that are wanted ----

  /** `at` lists the places of the positive portions, and `wanted` is what is there. */
  ghost predicate Picks(allocations: seq<Portion>, at: seq<nat>, wanted: seq<Portion>) {
    && |at| == |wanted| && (forall j :: 0 <= j < |at| ==> at[j] < |allocations| && wanted[j] == allocations[at[j]])
    && (forall i, j :: 0 <= i < j < |at| ==> at[i] < at[j])
    && forall i: nat :: i < |allocations| ==> (i in at <==> allocations[i].amount > 0)
  }

  function PositivePlaces(ps: seq<Portion>): seq<nat> {
    if ps == [] then []
    else PositivePlaces(ps[..|ps| - 1]) + if ps[|ps| - 1].amount > 0 then [|ps| - 1] else []
  }

  /** The positive part is the positive portions, in their order. */
  lemma {:induction false} PositivePartPicks(ps: seq<Portion>)
    ensures Picks(ps, PositivePlaces(ps), PositivePart(ps))
  {
    if ps != [] {
      var n := |ps| - 1;
      var front := ps[..n];
      PositivePartPicks(front);
      forall i: nat | i < |ps|
        ensures i in PositivePlaces(ps) <==> ps[i].amount > 0
      {
        assert i in PositivePlaces(ps) <==> i in PositivePlaces(front) || (i == n && ps[n].amount > 0);
        assert i < n ==> front[i] == ps[i];
      }
    }
  }

  /** What all positive portions come to. */
  function TotalWanted(ps: seq<Portion>): nat {
    if ps == [] then 0
    else TotalWanted(ps[..|ps| - 1]) + if ps[|ps| - 1].amount > 0 then ps[|ps| - 1].amount else 0
  }

  lemma {:induction false} PositivePartComesTo(ps: seq<Portion>)
    ensures SumOf(PositivePart(ps)) == TotalWanted(ps)
  {
    if ps != [] {
      PositivePartComesTo(ps[..|ps| - 1]);
      var front, last := PositivePart(ps[..|ps| - 1]), ps[|ps| - 1];
      if last.amount > 0 {
        assert (front + [last])[..|front|] == front;
      } else {
        assert front + [] == front;
      }
    }
  }

  // ---- what is confirmed ----

  /** The receipt was booked for the collection: its key has the uid after the prefix. */
  ghost predicate IsFor(r: Receipt, uid: string) {
    r.key.Some? && exists rest :: r.key.value == "ft-collect:" + uid + rest && (|uid| == 36 || (|uid| < 36 && rest == ""))
  }

  lemma KeyIsRead(key: string, uid: string, rest: string)
    requires key == "ft-collect:" + uid + rest && (|uid| == 36 || (|uid| < 36 && rest == ""))
    ensures UidOfKey(Some(key)) == Some(uid)
  {
    if |uid| == 36 {
      PrefixThenUid(uid, rest);
    } else {
      assert |KEY_PREFIX| == 11 && key == KEY_PREFIX + uid;
      assert key[..11] == KEY_PREFIX && key[11..] == uid;
    }
  }

  lemma KeyWasWritten(key: string, uid: string) returns (rest: string)
    requires UidOfKey(Some(key)) == Some(uid)
    ensures key == "ft-collect:" + uid + rest && (|uid| == 36 || (|uid| < 36 && rest == ""))
  {
    var tail := key[|KEY_PREFIX|..];
    assert key == KEY_PREFIX + tail;
    rest := tail[|uid|..];
    assert tail == uid + rest;
  }

  lemma IsForIff(r: Receipt, uid: string)
    ensures IsFor(r, uid) <==> UidOfKey(r.key) == Some(uid)
  {
    if IsFor(r, uid) {
      var rest :| r.key.value == "ft-collect:" + uid + rest && (|uid| == 36 || (|uid| < 36 && rest == ""));
      KeyIsRead(r.key.value, uid, rest);
    }
    if UidOfKey(r.key) == Some(uid) {
      var rest := KeyWasWritten(r.key.value, uid);
    }
  }

  lemma OneConfirmed(r: Receipt, uid: string)
    ensures Confirmed([], uid) == 0 && Confirmed([r], uid) == if IsFor(r, uid) then r.amount else 0
  {
    IsForIff(r, uid);
    assert [r][..0] == [];
  }

  /** What is confirmed of a collection adds up over its receipts. */
  lemma {:induction false} ConfirmedAddsUp(a: seq<Receipt>, b: seq<Receipt>, uid: string)
    ensures Confirmed(a + b, uid) == Confirmed(a, uid) + Confirmed(b, uid)
  {
    if b == [] {
      assert a + b == a;
    } else {
      ConfirmedAddsUp(a, b[..|b| - 1], uid);
      assert (a + b)[..|a + b| - 1] == a + b[..|b| - 1];
    }
  }

  // ---- which approvals pass ----

  /** The collection can pay the bill: it is there, is no note and not closed, and has something due; it is
      one of the task's bills when the task has any, and else of the shop's customer; and without a
      checkpoint it has no receipt of the collection. */
  ghost predicate Takes(books: Books, uid: string, expected: Option<int>, bill: nat)
    requires uid in books.tasks
  {
    && bill in books.bills && !books.bills[bill].creditNote && !books.bills[bill].closed
    && books.bills[bill].total - books.bills[bill].paid > 0
    && (if books.tasks[uid].linked != {} then bill in books.tasks[uid].linked
        else books.tasks[uid].customer.Some? && books.bills[bill].customer == books.tasks[uid].customer)
    && (expected.None? ==> forall r :: r in books.receipts && r.bill == bill ==> !IsFor(r, uid))
  }

  ghost predicate Found(books: Books, uid: string) {
    && uid in books.tasks && books.tasks[uid].kind == "payment_collect" && books.tasks[uid].status == Done
    && books.tasks[uid].collected > 0
  }

  function Left(books: Books, uid: string): int
    requires uid in books.tasks
  {
    books.tasks[uid].collected - Confirmed(books.receipts, uid)
  }

  predicate Wanted(allocations: seq<Portion>, i: nat) {
    i < |allocations| && allocations[i].amount > 0
  }

  predicate NamedTwice(allocations: seq<Portion>) {
    exists i: nat, j: nat :: i < j < |allocations| && Wanted(allocations, i) && Wanted(allocations, j)
                             && allocations[i].bill == allocations[j].bill
  }

  /** The portion is within what its bill can take. */
  ghost predicate Suits(books: Books, uid: string, expected: Option<int>, p: Portion)
    requires uid in books.tasks
  {
    Takes(books, uid, expected, p.bill) && p.amount <= books.bills[p.bill].total - books.bills[p.bill].paid
  }

  /** The `i`th portion is the first wanted one that does not suit. */
  ghost predicate FirstUnsuited(books: Books, uid: string, expected: Option<int>, allocations: seq<Portion>, i: nat)
    requires uid in books.tasks
  {
    && Wanted(allocations, i) && !Suits(books, uid, expected, allocations[i])
    && forall j: nat :: j < i && Wanted(allocations, j) ==> Suits(books, uid, expected, allocations[j])
  }

  /** The approval fits the books. */
  ghost predicate Passes(books: Books, uid: string, allocations: seq<Portion>, expected: Option<int>) {
    && Found(books, uid) && Left(books, uid) > 0
    && (expected.Some? ==> expected.value == Confirmed(books.receipts, uid))
    && (exists i: nat :: Wanted(allocations, i)) && !NamedTwice(allocations)
    && (forall i: nat :: Wanted(allocations, i) ==> Suits(books, uid, expected, allocations[i]))
    && TotalWanted(allocations) <= Left(books, uid)
  }

  /** Why an approval does not fit: the first thing that is wrong, in this order. */
  ghost predicate Refused(books: Books, uid: string, allocations: seq<Portion>, expected: Option<int>, e: Refusal) {
    if !Found(books, uid) then e == NotFound
    else if Left(books, uid) <= 0 then e == AlreadyRecorded
    else if expected.Some? && expected.value != Confirmed(books.receipts, uid) then e == CollectionChanged
    else if !exists i: nat :: Wanted(allocations, i) then e == NothingWanted
    else if NamedTwice(allocations) then e == BillTwice
    else if exists i: nat :: FirstUnsuited(books, uid, expected, allocations, i) then
      exists i: nat :: FirstUnsuited(books, uid, expected, allocations, i) &&
                       e == if Takes(books, uid, expected, allocations[i].bill) then OnlyDue(allocations[i].bill)
                            else CannotTake(allocations[i].bill)
    else TotalWanted(allocations) > Left(books, uid) && e == OverCollection
  }

  // ---- the check says so ----

  lemma TakesIff(books: Books, uid: string, expected: Option<int>, bill: nat)
    requires uid in books.tasks
    ensures Takes(books, uid, expected, bill) <==>
            Candidate(books, books.tasks[uid], Recorded(books.receipts, uid), expected.Some?, bill)
  {
    ServicesAgree(books.receipts, uid);
    forall r
      ensures IsFor(r, uid) <==> UidOfKey(r.key) == Some(uid)
    {
      IsForIff(r, uid);
    }
    if Used(books.receipts, uid, bill) {
      var i :| 0 <= i < |books.receipts| && books.receipts[i].bill == bill && UidOfKey(books.receipts[i].key) == Some(uid);
      assert books.receipts[i] in books.receipts;
    }
  }

  lemma SuitsIff(books: Books, uid: string, expected: Option<int>, p: Portion)
    requires uid in books.tasks
    ensures Suits(books, uid, expected, p) <==>
            Fits(books, books.tasks[uid], Recorded(books.receipts, uid), expected.Some?, p)
  {
    TakesIff(books, uid, expected, p.bill);
  }

  ghost predicate AllSuit(books: Books, uid: string, expected: Option<int>, wanted: seq<Portion>)
    requires uid in books.tasks
  {
    forall k :: 0 <= k < |wanted| ==> Suits(books, uid, expected, wanted[k])
  }

  /** The first wanted portion that does not suit is the one that is refused. */
  lemma {:induction false} MisfitOf(books: Books, uid: string, expected: Option<int>, wanted: seq<Portion>) returns (k: nat)
    requires uid in books.tasks
    ensures k <= |wanted| && AllSuit(books, uid, expected, wanted[..k])
    ensures k < |wanted| ==> !Suits(books, uid, expected, wanted[k])
    ensures FirstMisfit(books, books.tasks[uid], Recorded(books.receipts, uid), expected.Some?, wanted) ==
            if k == |wanted| then None
            else Some(if Takes(books, uid, expected, wanted[k].bill) then OnlyDue(wanted[k].bill) else CannotTake(wanted[k].bill))
  {
    k := 0;
    if wanted != [] {
      SuitsIff(books, uid, expected, wanted[0]);
      TakesIff(books, uid, expected, wanted[0].bill);
      if Suits(books, uid, expected, wanted[0]) {
        k := MisfitOf(books, uid, expected, wanted[1..]);
        assert wanted[..k + 1] == [wanted[0]] + wanted[1..][..k];
        k := k + 1;
      }
    }
  }

  /** The positive part speaks of the same portions, in the same order. */
  lemma PartIsEmptyIff(allocations: seq<Portion>)
    ensures PositivePart(allocations) == [] <==> !exists i: nat :: Wanted(allocations, i)
  {
    var at := PositivePlaces(allocations);
    PositivePartPicks(allocations);
    if at != [] {
      assert at[0] in at && Wanted(allocations, at[0]);
    }
    if i: nat :| Wanted(allocations, i) {
      assert i in at;
    }
  }

  lemma PartIsDistinctIff(allocations: seq<Portion>)
    ensures DistinctBills(PositivePart(allocations)) <==> !NamedTwice(allocations)
  {
    var at, wanted := PositivePlaces(allocations), PositivePart(allocations);
    PositivePartPicks(allocations);
    if i: nat, j: nat :| i < j < |allocations| && Wanted(allocations, i) && Wanted(allocations, j)
                         && allocations[i].bill == allocations[j].bill {
      assert i in at && j in at;
      var k :| 0 <= k < |at| && at[k] == i;
      var l :| 0 <= l < |at| && at[l] == j;
      assert wanted[k].bill == wanted[l].bill && k != l;
    }
    if k: nat, l: nat :| k < l < |wanted| && wanted[k].bill == wanted[l].bill {
      assert at[k] in at && at[l] in at;
      assert Wanted(allocations, at[k]) && Wanted(allocations, at[l]);
    }
  }

  ghost predicate WantedSuit(books: Books, uid: string, expected: Option<int>, allocations: seq<Portion>)
    requires uid in books.tasks
  {
    forall i: nat :: Wanted(allocations, i) ==> Suits(books, uid, expected, allocations[i])
  }

  lemma SuitAlike(books: Books, uid: string, expected: Option<int>, allocations: seq<Portion>)
    requires uid in books.tasks
    ensures AllSuit(books, uid, expected, PositivePart(allocations)) <==> WantedSuit(books, uid, expected, allocations)
  {
    var at, wanted := PositivePlaces(allocations), PositivePart(allocations);
    PositivePartPicks(allocations);
    if AllSuit(books, uid, expected, wanted) {
      forall i: nat | Wanted(allocations, i)
        ensures Suits(books, uid, expected, allocations[i])
      {
        assert i in at;
        var k :| 0 <= k < |at| && at[k] == i;
        assert wanted[k] == allocations[i];
      }
    }
    if WantedSuit(books, uid, expected, allocations) {
      forall k | 0 <= k < |wanted|
        ensures Suits(books, uid, expected, wanted[k])
      {
        assert at[k] in at && Wanted(allocations, at[k]);
      }
    }
  }

  lemma FirstOfThePart(books: Books, uid: string, expected: Option<int>, allocations: seq<Portion>, k: nat) returns (i: nat)
    requires uid in books.tasks && k < |PositivePart(allocations)| && !Suits(books, uid, expected, PositivePart(allocations)[k])
    requires AllSuit(books, uid, expected, PositivePart(allocations)[..k])
    ensures FirstUnsuited(books, uid, expected, allocations, i) && allocations[i] == PositivePart(allocations)[k]
  {
    var at, wanted := PositivePlaces(allocations), PositivePart(allocations);
    PositivePartPicks(allocations);
    i := at[k];
    assert at[k] in at;
    forall j: nat | j < i && Wanted(allocations, j)
      ensures Suits(books, uid, expected, allocations[j])
    {
      assert j in at;
      var l :| 0 <= l < |at| && at[l] == j;
      assert l < k && wanted[..k][l] == allocations[j];
    }
  }

  /** Once all that comes before holds, the portions decide. */
  ghost predicate Reached(books: Books, uid: string, allocations: seq<Portion>, expected: Option<int>) {
    && Found(books, uid) && Left(books, uid) > 0
    && (expected.Some? ==> expected.value == Confirmed(books.receipts, uid))
    && (exists i: nat :: Wanted(allocations, i)) && !NamedTwice(allocations)
  }

  lemma CheckOfPortions(books: Books, uid: string, allocations: seq<Portion>, expected: Option<int>)
    requires Reached(books, uid, allocations, expected)
    ensures var misfit := FirstMisfit(books, books.tasks[uid], Recorded(books.receipts, uid), expected.Some?, PositivePart(allocations));
            Check(books, uid, allocations, expected) ==
            if misfit.Some? then Err(misfit.value)
            else if TotalWanted(allocations) > Left(books, uid) then Err(OverCollection) else Ok(PositivePart(allocations))
  {
    ServicesAgree(books.receipts, uid);
    PartIsEmptyIff(allocations);
    PartIsDistinctIff(allocations);
    PositivePartComesTo(allocations);
  }

  lemma PortionsAreChecked(books: Books, uid: string, allocations: seq<Portion>, expected: Option<int>)
    requires Reached(books, uid, allocations, expected)
    ensures var r := Check(books, uid, allocations, expected);
            if Passes(books, uid, allocations, expected) then r == Ok(PositivePart(allocations))
            else r.Err? && Refused(books, uid, allocations, expected, r.error)
  {
    var wanted := PositivePart(allocations);
    CheckOfPortions(books, uid, allocations, expected);
    SuitAlike(books, uid, expected, allocations);
    var k := MisfitOf(books, uid, expected, wanted);
    if k < |wanted| {
      var i := FirstOfThePart(books, uid, expected, allocations, k);
    } else {
      assert wanted[..k] == wanted;
      assert WantedSuit(books, uid, expected, allocations);
    }
  }

  lemma BeforePortions(books: Books, uid: string, allocations: seq<Portion>, expected: Option<int>)
    requires !Reached(books, uid, allocations, expected)
    ensures var r := Check(books, uid, allocations, expected); r.Err? && Refused(books, uid, allocations, expected, r.error)
  {
    ServicesAgree(books.receipts, uid);
    PartIsEmptyIff(allocations);
    PartIsDistinctIff(allocations);
  }

  /** An approval passes the check if and only if it fits the books; its positive portions are then booked, in
      their order.  Any other is refused for the first thing that is wrong with it. */
  lemma CheckIff(books: Books, uid: string, allocations: seq<Portion>, expected: Option<int>)
    ensures var r := Check(books, uid, allocations, expected);
            && (r.Ok? <==> Passes(books, uid, allocations, expected))
            && (r.Ok? ==> exists at :: Picks(allocations, at, r.value))
            && (r.Err? ==> Refused(books, uid, allocations, expected, r.error))
  {
    PositivePartPicks(allocations);
    if Reached(books, uid, allocations, expected) {
      PortionsAreChecked(books, uid, allocations, expected);
    } else {
      BeforePortions(books, uid, allocations, expected);
    }
  }

  // ---- what a payment does ----

  /** The bill is there, no note, and with the amount is paid no more than its total less its notes; a bill of
      negative total takes any amount. */
  predicate CanTake(books: Books, bill: nat, amount: int) {
    && bill in books.bills && !books.bills[bill].creditNote
    && var b := books.bills[bill];
       b.total < 0 || b.paid + amount <= (if b.total > b.credited then b.total - b.credited else 0)
  }

  ghost predicate KeyUsed(books: Books, key: string) {
    exists r :: r in books.receipts && r.key == Some(key)
  }

  /** The receipt is new, and its bill alone is changed, by what is paid on it. */
  ghost predicate PaidInto(books: Books, after: Books, r: Receipt)
    requires r.bill in books.bills
  {
    && after.tasks == books.tasks && after.receipts == books.receipts + [r] && after.bills.Keys == books.bills.Keys
    && (forall b :: b in books.bills && b != r.bill ==> after.bills[b] == books.bills[b])
    && after.bills[r.bill] == books.bills[r.bill].(paid := books.bills[r.bill].paid + r.amount)
  }

  /** A payment gives the receipt that its key already has, and changes nothing; else it is booked exactly when
      the bill can take it; and it is refused if nothing is paid. */
  lemma PaymentIff(books: Books, bill: nat, amount: int, key: string)
    ensures match RecordPayment(books, bill, amount, key)
            case Err(e) => e == PaymentRefused && (amount <= 0 || (!KeyUsed(books, key) && !CanTake(books, bill, amount)))
            case Ok(paid) =>
              && amount > 0
              && if KeyUsed(books, key) then paid.books == books && paid.receipt in books.receipts && paid.receipt.key == Some(key)
                 else CanTake(books, bill, amount) && paid.receipt == Receipt(Some(key), bill, amount)
                      && PaidInto(books, paid.books, paid.receipt)
  {
    var i := FirstUse(books.receipts, key);
    if i == |books.receipts| {
      forall j | 0 <= j < i
        ensures books.receipts[j].key != Some(key)
      {
        NoUseBefore(books.receipts, key, j);
      }
    } else {
      assert books.receipts[i] in books.receipts;
    }
  }
}
