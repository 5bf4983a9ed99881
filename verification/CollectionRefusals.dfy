/** Where a suggestion that passes every check is still refused: the check looks at what is stored
    on the bill, the payment also at its credit notes. */
module CollectionRefusals {
  import opened Wrappers
  import opened CollectionKeys
  import opened CollectionModel
  import opened CollectionRuns
  import opened CollectionSafety
  import opened CollectionTheorems
  import opened CollectionSuggest

  /** A payment of the batch is made exactly when its bill can take it, as the books stand. */
  lemma PaymentGoesThroughIff(books: Books, uid: string, f: InFlight)
    requires LedgerOk(books) && FlightOk(books, uid, f) && f.next < |f.wanted|
    ensures PaymentOf(books, uid, f).Ok? <==> Payable(books.bills, f.wanted[f.next].bill, f.wanted[f.next].amount)
  {
    FlightKeyIsNew(books, uid, f);
    PostingAppends(books, f.pending);
    NothingOnMissingBills(f.pending, f.wanted[f.next].bill);
    NewKeyPaidIff(PostAll(books, f.pending), f.wanted[f.next], CollectionKey(uid, f.wanted[f.next].bill, f.expected));
  }

  lemma NewKeyPaidIff(books: Books, p: Portion, key: string)
    requires FirstUse(books.receipts, key) == |books.receipts|
    ensures RecordPayment(books, p.bill, p.amount, key).Ok? <==> Payable(books.bills, p.bill, p.amount)
  {
  }

  lemma FlightsOfOneBatch(books: Books, uid: string, expected: Option<int>, wanted: seq<Portion>, n: nat)
    requires n <= |wanted| && FlightOk(books, uid, Flight(uid, expected, wanted, 0))
    ensures FlightOk(books, uid, Flight(uid, expected, wanted, n))
  {
  }

  lemma NextGoesThroughIff(books: Books, uid: string, expected: Option<int>, wanted: seq<Portion>, n: nat)
    requires n < |wanted| && PaysInTurn(books, uid, expected, wanted, n)
    ensures PayFirst(books, uid, expected, wanted, n + 1).Ok? <==> PaymentOf(books, uid, Flight(uid, expected, wanted, n)).Ok?
  {
    assert wanted[..n + 1][..n] == wanted[..n];
  }

  lemma RefusalsStay(books: Books, uid: string, expected: Option<int>, wanted: seq<Portion>, n: nat)
    requires n < |wanted| && PayFirst(books, uid, expected, wanted, n).Err?
    ensures PayFirst(books, uid, expected, wanted, n + 1).Err?
  {
    assert wanted[..n + 1][..n] == wanted[..n];
  }

  lemma PostedInTurn(books: Books, uid: string, expected: Option<int>, wanted: seq<Portion>, n: nat)
    requires n < |wanted| && LedgerOk(books) && FlightOk(books, uid, Flight(uid, expected, wanted, 0))
    ensures Posted(books, uid, Flight(uid, expected, wanted, n))
    ensures PaymentOf(books, uid, Flight(uid, expected, wanted, n)).Ok? <==> Payable(books.bills, wanted[n].bill, wanted[n].amount)
  {
    FlightsOfOneBatch(books, uid, expected, wanted, n);
    PaymentPosts(books, uid, Flight(uid, expected, wanted, n));
    PaymentGoesThroughIff(books, uid, Flight(uid, expected, wanted, n));
  }

  /** Whether the first payments go through, and what they leave. */
  ghost predicate GoesThroughIff(books: Books, uid: string, expected: Option<int>, wanted: seq<Portion>, n: nat)
    requires n <= |wanted|
  {
    && (PayFirst(books, uid, expected, wanted, n).Ok? <==> AllPayable(books.bills, wanted, n))
    && (PayFirst(books, uid, expected, wanted, n).Ok? ==> PaysInTurn(books, uid, expected, wanted, n))
  }

  ghost predicate AllPayable(bills: map<nat, Bill>, wanted: seq<Portion>, n: nat)
    requires n <= |wanted|
  {
    forall i :: 0 <= i < n ==> Payable(bills, wanted[i].bill, wanted[i].amount)
  }

  lemma NextPaysIff(books: Books, uid: string, expected: Option<int>, wanted: seq<Portion>, n: nat)
    requires n < |wanted| && PaysInTurn(books, uid, expected, wanted, n)
    requires Posted(books, uid, Flight(uid, expected, wanted, n))
    requires PaymentOf(books, uid, Flight(uid, expected, wanted, n)).Ok? <==> Payable(books.bills, wanted[n].bill, wanted[n].amount)
    ensures PayFirst(books, uid, expected, wanted, n + 1).Ok? <==> Payable(books.bills, wanted[n].bill, wanted[n].amount)
    ensures PayFirst(books, uid, expected, wanted, n + 1).Ok? ==> PaysInTurn(books, uid, expected, wanted, n + 1)
  {
    NextGoesThroughIff(books, uid, expected, wanted, n);
    if PayFirst(books, uid, expected, wanted, n + 1).Ok? {
      AnotherPaid(books, uid, expected, wanted, n);
    }
  }

  lemma NextPayable(bills: map<nat, Bill>, wanted: seq<Portion>, n: nat)
    requires n < |wanted|
    ensures AllPayable(bills, wanted, n + 1) <==> AllPayable(bills, wanted, n) && Payable(bills, wanted[n].bill, wanted[n].amount)
  {
  }

  /** Every payment of the batch posts its receipt when its bill can take it, and else is refused. */
  ghost predicate PostsInTurn(books: Books, uid: string, expected: Option<int>, wanted: seq<Portion>) {
    forall n | 0 <= n < |wanted| :: PostsNext(books, uid, expected, wanted, n)
  }

  ghost predicate PostsNext(books: Books, uid: string, expected: Option<int>, wanted: seq<Portion>, n: nat)
    requires n < |wanted|
  {
    && Posted(books, uid, Flight(uid, expected, wanted, n))
    && (PaymentOf(books, uid, Flight(uid, expected, wanted, n)).Ok? <==> Payable(books.bills, wanted[n].bill, wanted[n].amount))
  }

  lemma {:induction false} PostingBatchIff(books: Books, uid: string, expected: Option<int>, wanted: seq<Portion>, n: nat)
    requires PostsInTurn(books, uid, expected, wanted) && n <= |wanted|
    ensures GoesThroughIff(books, uid, expected, wanted, n)
  {
    if n == 0 {
      NothingToPay(books, uid, expected, wanted);
    } else {
      var m := n - 1;
      PostingBatchIff(books, uid, expected, wanted, m);
      NextPayable(books.bills, wanted, m);
      assert PostsNext(books, uid, expected, wanted, m);
      if PayFirst(books, uid, expected, wanted, m).Ok? {
        NextPaysIff(books, uid, expected, wanted, m);
      } else {
        RefusalsStay(books, uid, expected, wanted, m);
      }
    }
  }

  /** A checked batch goes through exactly when each of its bills can take its portion. */
  lemma BatchGoesThroughIff(books: Books, uid: string, expected: Option<int>, wanted: seq<Portion>)
    requires LedgerOk(books) && FlightOk(books, uid, Flight(uid, expected, wanted, 0))
    ensures PayAll(books, uid, expected, wanted).Ok? <==> AllPayable(books.bills, wanted, |wanted|)
  {
    forall n | 0 <= n < |wanted|
      ensures PostsNext(books, uid, expected, wanted, n)
    {
      PostedInTurn(books, uid, expected, wanted, n);
    }
    PostingBatchIff(books, uid, expected, wanted, |wanted|);
  }

  lemma NothingToPay(books: Books, uid: string, expected: Option<int>, wanted: seq<Portion>)
    ensures GoesThroughIff(books, uid, expected, wanted, 0)
  {
    assert ReceiptsFor(uid, expected, wanted[..0]) == [];
  }

  /** A bill that owes something and has had part of it credited. */
  predicate PartlyCredited(b: Bill) {
    b.credited > 0 && b.total > 0
  }

  lemma DueIsPayableIff(bills: map<nat, Bill>, bill: nat, amount: int)
    requires bill in bills && !bills[bill].creditNote && 0 < amount <= Due(bills[bill])
    ensures !PartlyCredited(bills[bill]) ==> Payable(bills, bill, amount)
    ensures amount == Due(bills[bill]) && PartlyCredited(bills[bill]) ==> !Payable(bills, bill, amount)
  {
  }

  // ---- when a suggestion is booked ----

  /** What the cash comes to on the `i`th bill, once the bills before it have had what they owe. */
  function Share(bills: map<nat, Bill>, ids: seq<nat>, cash: nat, i: nat): nat
    requires i < |ids| && forall j :: 0 <= j < |ids| ==> ids[j] in bills
  {
    var left := Positive(cash - TotalDue(bills, ids[..i]));
    if left <= Due(bills[ids[i]]) then left else Due(bills[ids[i]])
  }

  function Shares(bills: map<nat, Bill>, ids: seq<nat>, cash: nat): seq<Portion>
    requires forall j :: 0 <= j < |ids| ==> ids[j] in bills
  {
    seq(|ids|, i requires 0 <= i < |ids| => Portion(ids[i], Share(bills, ids, cash, i)))
  }

  lemma {:induction false} SharesAddUp(bills: map<nat, Bill>, ids: seq<nat>, cash: nat, n: nat)
    requires n <= |ids| && forall j :: 0 <= j < |ids| ==> ids[j] in bills
    ensures SumOf(Shares(bills, ids, cash)[..n]) ==
            if cash <= TotalDue(bills, ids[..n]) then cash else TotalDue(bills, ids[..n])
  {
    if n > 0 {
      SharesAddUp(bills, ids, cash, n - 1);
      var shares := Shares(bills, ids, cash);
      assert shares[..n][..n - 1] == shares[..n - 1] && ids[..n][..n - 1] == ids[..n - 1];
    }
  }

  lemma {:induction false} TotalDueGrows(bills: map<nat, Bill>, ids: seq<nat>, m: nat, n: nat)
    requires m <= n <= |ids| && forall j :: 0 <= j < |ids| ==> ids[j] in bills
    ensures TotalDue(bills, ids[..m]) <= TotalDue(bills, ids[..n])
  {
    if m < n {
      TotalDueGrows(bills, ids, m, n - 1);
      assert ids[..n][..n - 1] == ids[..n - 1];
    }
  }

  lemma EarlierSharesAreFull(bills: map<nat, Bill>, ids: seq<nat>, cash: nat, i: nat, j: nat)
    requires i < j < |ids| && forall j :: 0 <= j < |ids| ==> ids[j] in bills
    requires Share(bills, ids, cash, j) > 0
    ensures Share(bills, ids, cash, i) == Due(bills[ids[i]])
  {
    TotalDueGrows(bills, ids, i + 1, j);
    assert ids[..i + 1][..i] == ids[..i];
  }

  lemma SharesAreGreedy(bills: map<nat, Bill>, ids: seq<nat>, cash: nat)
    requires forall j :: 0 <= j < |ids| ==> ids[j] in bills
    ensures Greedy(bills, ids, cash, Shares(bills, ids, cash))
  {
    var shares := Shares(bills, ids, cash);
    SharesAddUp(bills, ids, cash, |ids|);
    assert shares[..|ids|] == shares && ids[..|ids|] == ids;
    forall i, j | 0 <= i < j < |ids| && shares[j].amount > 0
      ensures shares[i].amount == Due(bills[ids[i]])
    {
      EarlierSharesAreFull(bills, ids, cash, i, j);
    }
  }

  lemma SplitIsShares(bills: map<nat, Bill>, ids: seq<nat>, cash: nat, split: seq<Portion>, i: nat)
    requires i < |ids| && forall j :: 0 <= j < |ids| ==> ids[j] in bills
    requires Greedy(bills, ids, cash, split)
    ensures split[i].amount == Share(bills, ids, cash, i)
  {
    SharesAreGreedy(bills, ids, cash);
    GreedyIsUnique(bills, ids, cash, split, Shares(bills, ids, cash));
  }

  /** The bill's credit notes leave room for the amount; bills of negative total are not limited. */
  predicate HasRoom(b: Bill, amount: nat) {
    b.total < 0 || b.paid + amount <= Positive(b.total - b.credited)
  }

  /** Every bill that the cash comes to has room for what it comes to there. */
  ghost predicate RoomForShares(bills: map<nat, Bill>, ids: seq<nat>, cash: nat)
    requires forall j :: 0 <= j < |ids| ==> ids[j] in bills
  {
    forall i :: 0 <= i < |ids| && Share(bills, ids, cash, i) > 0 ==> HasRoom(bills[ids[i]], Share(bills, ids, cash, i))
  }

  /** Every portion that is not zero is one its bill can take. */
  ghost predicate PortionsPayable(bills: map<nat, Bill>, split: seq<Portion>) {
    forall k :: 0 <= k < |split| && split[k].amount > 0 ==> Payable(bills, split[k].bill, split[k].amount)
  }

  lemma PositivePartPayableIff(bills: map<nat, Bill>, split: seq<Portion>)
    requires DistinctBills(split)
    ensures AllPayable(bills, PositivePart(split), |PositivePart(split)|) <==> PortionsPayable(bills, split)
  {
    var wanted := PositivePart(split);
    PositivePartIsDistinct(split);
    if AllPayable(bills, wanted, |wanted|) {
      forall k | 0 <= k < |split| && split[k].amount > 0
        ensures Payable(bills, split[k].bill, split[k].amount)
      {
        assert split[k] in split;
        PositivePartNames(split, split[k]);
        var i :| 0 <= i < |wanted| && wanted[i] == split[k];
      }
    }
    if PortionsPayable(bills, split) {
      forall i | 0 <= i < |wanted|
        ensures Payable(bills, wanted[i].bill, wanted[i].amount)
      {
        assert wanted[i] in split;
        var k :| 0 <= k < |split| && split[k] == wanted[i];
      }
    }
  }

  lemma SharesPayableIff(books: Books, uid: string, ids: seq<nat>, cash: nat, split: seq<Portion>)
    requires uid in books.tasks && Candidates(books, uid, ids) && forall i :: 0 <= i < |ids| ==> ids[i] in books.bills
    requires Greedy(books.bills, ids, cash, split)
    ensures PortionsPayable(books.bills, split) <==> RoomForShares(books.bills, ids, cash)
  {
    forall i | 0 <= i < |ids|
      ensures split[i].amount == Share(books.bills, ids, cash, i) && !books.bills[ids[i]].creditNote
    {
      assert ids[i] in ids;
      SplitIsShares(books.bills, ids, cash, split, i);
    }
  }

  lemma SuggestionIsDistinct(books: Books, uid: string, ids: seq<nat>, split: seq<Portion>)
    requires uid in books.tasks && Candidates(books, uid, ids)
    requires |split| == |ids| && forall i :: 0 <= i < |ids| ==> split[i].bill == ids[i]
    ensures DistinctBills(split)
  {
  }

  lemma ShareBatchIff(books: Books, uid: string, ids: seq<nat>, cash: nat, split: seq<Portion>)
    requires uid in books.tasks && Candidates(books, uid, ids) && forall i :: 0 <= i < |ids| ==> ids[i] in books.bills
    requires Greedy(books.bills, ids, cash, split)
    ensures AllPayable(books.bills, PositivePart(split), |PositivePart(split)|) <==> RoomForShares(books.bills, ids, cash)
  {
    SuggestionIsDistinct(books, uid, ids, split);
    PositivePartPayableIff(books.bills, split);
    SharesPayableIff(books, uid, ids, cash, split);
  }

  /** A suggestion for the cash of a collection that is still to be confirmed. */
  ghost predicate Suggested(books: Books, uid: string, ids: seq<nat>, cash: nat, split: seq<Portion>) {
    && LedgerOk(books) && Collecting(books.tasks, uid)
    && cash > 0 && cash == books.tasks[uid].collected - Confirmed(books.receipts, uid)
    && ids != [] && Candidates(books, uid, ids) && (forall i :: 0 <= i < |ids| ==> ids[i] in books.bills)
    && Greedy(books.bills, ids, cash, split)
  }

  lemma ConfirmsTheBatch(books: Books, uid: string, ids: seq<nat>, cash: nat, split: seq<Portion>, expected: Option<int>)
    requires Suggested(books, uid, ids, cash, split) && expected == Some(Confirmed(books.receipts, uid))
    ensures Confirm(books, uid, split, expected).Ok? <==> AllPayable(books.bills, PositivePart(split), |PositivePart(split)|)
  {
    var wanted := PositivePart(split);
    SuggestionPassesTheChecks(books, uid, ids, split);
    CheckedPortionsFit(books, uid, split, expected);
    assert ReceiptsFor(uid, expected, wanted[..0]) == [];
    BatchGoesThroughIff(books, uid, expected, wanted);
    assert Confirm(books, uid, split, expected) == PayAll(books, uid, expected, wanted);
  }

  lemma ConfirmedIff(books: Books, uid: string, ids: seq<nat>, cash: nat, split: seq<Portion>, expected: Option<int>)
    requires Confirm(books, uid, split, expected).Ok? <==> AllPayable(books.bills, PositivePart(split), |PositivePart(split)|)
    requires uid in books.tasks && Candidates(books, uid, ids) && forall i :: 0 <= i < |ids| ==> ids[i] in books.bills
    requires Greedy(books.bills, ids, cash, split)
    ensures Confirm(books, uid, split, expected).Ok? <==> RoomForShares(books.bills, ids, cash)
  {
    ShareBatchIff(books, uid, ids, cash, split);
  }

  /** Whatever the cash, the suggestion is booked if and only if every bill that it comes to has room,
      after its credit notes, for what it comes to there. */
  lemma SuggestionIsBookedIff(books: Books, uid: string, ids: seq<nat>, cash: nat, split: seq<Portion>, expected: Option<int>)
    requires Suggested(books, uid, ids, cash, split) && expected == Some(Confirmed(books.receipts, uid))
    ensures Confirm(books, uid, split, expected).Ok? <==> RoomForShares(books.bills, ids, cash)
  {
    ConfirmsTheBatch(books, uid, ids, cash, split, expected);
    ConfirmedIff(books, uid, ids, cash, split, expected);
  }

  /** With cash for all that is due: if and only if no candidate with a positive total has had a credit
      note. */
  lemma WholeSuggestionIsBookedIff(books: Books, uid: string, ids: seq<nat>, cash: nat, split: seq<Portion>, expected: Option<int>)
    requires Suggested(books, uid, ids, cash, split) && expected == Some(Confirmed(books.receipts, uid))
    requires SumOf(split) == TotalDue(books.bills, ids)
    ensures Confirm(books, uid, split, expected).Ok? <==> forall i :: 0 <= i < |ids| ==> !PartlyCredited(books.bills[ids[i]])
  {
    var wanted := PositivePart(split);
    ConfirmsTheBatch(books, uid, ids, cash, split, expected);
    if forall i :: 0 <= i < |ids| ==> !PartlyCredited(books.bills[ids[i]]) {
      UncreditedIsPayable(books, uid, ids, split);
    }
    if AllPayable(books.bills, wanted, |wanted|) {
      PayableIsUncredited(books, uid, ids, split);
    }
  }

  lemma UncreditedIsPayable(books: Books, uid: string, ids: seq<nat>, split: seq<Portion>)
    requires uid in books.tasks && Candidates(books, uid, ids) && |split| == |ids|
    requires forall i :: 0 <= i < |ids| ==> ids[i] in books.bills && !PartlyCredited(books.bills[ids[i]])
    requires forall i :: 0 <= i < |ids| ==> split[i].bill == ids[i] && split[i].amount <= Due(books.bills[ids[i]])
    ensures forall i :: 0 <= i < |PositivePart(split)| ==>
              Payable(books.bills, PositivePart(split)[i].bill, PositivePart(split)[i].amount)
  {
    var wanted := PositivePart(split);
    PositivePartIsDistinct(split);
    forall i | 0 <= i < |wanted|
      ensures Payable(books.bills, wanted[i].bill, wanted[i].amount)
    {
      assert wanted[i] in split;
      var k :| 0 <= k < |split| && split[k] == wanted[i];
      assert ids[k] in ids;
      DueIsPayableIff(books.bills, wanted[i].bill, wanted[i].amount);
    }
  }

  lemma PayableIsUncredited(books: Books, uid: string, ids: seq<nat>, split: seq<Portion>)
    requires uid in books.tasks && Candidates(books, uid, ids) && |split| == |ids|
    requires forall i :: 0 <= i < |ids| ==> ids[i] in books.bills
    requires forall i :: 0 <= i < |ids| ==> split[i].bill == ids[i] && 0 <= split[i].amount <= Due(books.bills[ids[i]])
    requires SumOf(split) == TotalDue(books.bills, ids)
    requires forall i :: 0 <= i < |PositivePart(split)| ==>
               Payable(books.bills, PositivePart(split)[i].bill, PositivePart(split)[i].amount)
    ensures forall i :: 0 <= i < |ids| ==> !PartlyCredited(books.bills[ids[i]])
  {
    EverythingPaid(books.bills, ids, split);
    forall k | 0 <= k < |ids|
      ensures !PartlyCredited(books.bills[ids[k]])
    {
      assert ids[k] in ids;
      assert split[k] in split && split[k].amount > 0;
      PositivePartNames(split, split[k]);
      var i :| 0 <= i < |PositivePart(split)| && PositivePart(split)[i] == split[k];
      DueIsPayableIff(books.bills, ids[k], split[k].amount);
    }
  }

  /** A bill of 100 rupees with a credit note of 40, and a collection of 100 for it. */
  function CreditedBooks(uid: string, customer: nat): Books {
    Books(map[uid := Task(COLLECT, Done, 10000, {1}, Some(customer))],
          map[1 := Bill(Some(customer), false, false, 10000, 4000, 0, 0)], [])
  }

  lemma OnePayment(books: Books, uid: string, expected: Option<int>, p: Portion)
    requires books.receipts == [] && !Payable(books.bills, p.bill, p.amount)
    ensures PayAll(books, uid, expected, [p]) == Err(PaymentRefused)
  {
    var key := CollectionKey(uid, p.bill, expected);
    assert FirstUse([], key) == 0 && RecordPayment(books, p.bill, p.amount, key) == Err(PaymentRefused);
    assert PayFirst(books, uid, expected, [p], 0) == Ok(Batch(books, 0));
  }

  lemma CreditedCandidates(uid: string, customer: nat)
    ensures Candidates(CreditedBooks(uid, customer), uid, [1])
  {
  }

  lemma SplitOfOne(bills: map<nat, Bill>, id: nat)
    requires id in bills
    ensures Greedy(bills, [id], Due(bills[id]), [Portion(id, Due(bills[id]))])
    ensures PositivePart([Portion(id, Due(bills[id]))]) == if Due(bills[id]) > 0 then [Portion(id, Due(bills[id]))] else []
  {
    var p := Portion(id, Due(bills[id]));
    assert [p][..0] == [] && [id][..0] == [];
    assert TotalDue(bills, [id]) == TotalDue(bills, [id][..0]) + Due(bills[id]);
    assert SumOf([p]) == SumOf([p][..0]) + p.amount;
  }

  lemma CreditedChecks(uid: string, customer: nat, split: seq<Portion>)
    requires split == [Portion(1, 10000)]
    ensures Greedy(CreditedBooks(uid, customer).bills, [1], 10000, split) && PositivePart(split) == split
    ensures Check(CreditedBooks(uid, customer), uid, split, Some(0)) == Ok(split)
  {
    var books := CreditedBooks(uid, customer);
    CreditedCandidates(uid, customer);
    SplitOfOne(books.bills, 1);
    assert Confirmed(books.receipts, uid) == 0;
    SuggestionPassesTheChecks(books, uid, [1], split);
  }

  /** What was collected for such a bill passes every check, and the payment is refused. */
  lemma SuggestionCanBeRefused(uid: string, customer: nat, split: seq<Portion>)
    requires split == [Portion(1, 10000)]
    ensures Greedy(CreditedBooks(uid, customer).bills, [1], 10000, split)
    ensures Check(CreditedBooks(uid, customer), uid, split, Some(0)) == Ok(split)
    ensures PayAll(CreditedBooks(uid, customer), uid, Some(0), split) == Err(PaymentRefused)
  {
    CreditedChecks(uid, customer, split);
    OnePayment(CreditedBooks(uid, customer), uid, Some(0), split[0]);
  }
}
