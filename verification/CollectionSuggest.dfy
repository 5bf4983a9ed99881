/** The split suggested to the owner: oldest bill first, each up to what is due on it. */
module CollectionSuggest {
  import opened Wrappers
  import opened CollectionKeys
  import opened CollectionModel
  import opened CollectionRuns
  import opened CollectionSafety
  import opened CollectionTheorems

  function TotalDue(bills: map<nat, Bill>, ids: seq<nat>): nat
    requires forall i :: 0 <= i < |ids| ==> ids[i] in bills
  {
    if ids == [] then 0 else TotalDue(bills, ids[..|ids| - 1]) + Due(bills[ids[|ids| - 1]])
  }

  /** `split` spends the whole amount, as far as the bills go, in the order of the bills. */
  predicate Greedy(bills: map<nat, Bill>, ids: seq<nat>, amount: nat, split: seq<Portion>)
    requires forall i :: 0 <= i < |ids| ==> ids[i] in bills
  {
    && |split| == |ids|
    && (forall i :: 0 <= i < |ids| ==> split[i].bill == ids[i] && 0 <= split[i].amount <= Due(bills[ids[i]]))
    && SumOf(split) == (if amount <= TotalDue(bills, ids) then amount else TotalDue(bills, ids))
    && forall i, j :: 0 <= i < j < |ids| && split[j].amount > 0 ==> split[i].amount == Due(bills[ids[i]])
  }

  method Suggest(bills: map<nat, Bill>, ids: seq<nat>, amount: nat) returns (split: seq<Portion>)
    requires forall i :: 0 <= i < |ids| ==> ids[i] in bills
    ensures Greedy(bills, ids, amount, split)
  {
    var left := amount;
    split := [];
    for i := 0 to |ids|
      invariant Greedy(bills, ids[..i], amount, split)
      invariant left == amount - SumOf(split)
    {
      var due := Due(bills[ids[i]]);
      var take := if left <= due then left else due;
      assert ids[..i + 1] == ids[..i] + [ids[i]];
      OneMoreBill(bills, ids[..i], amount, split, ids[i], take);
      split := split + [Portion(ids[i], take)];
      left := left - take;
    }
    assert ids[..|ids|] == ids;
  }

  lemma OneMoreSums(bills: map<nat, Bill>, ids: seq<nat>, split: seq<Portion>, id: nat, take: nat)
    requires id in bills && forall i :: 0 <= i < |ids| ==> ids[i] in bills
    ensures SumOf(split + [Portion(id, take)]) == SumOf(split) + take
    ensures TotalDue(bills, ids + [id]) == TotalDue(bills, ids) + Due(bills[id])
  {
    assert (ids + [id])[..|ids|] == ids && (split + [Portion(id, take)])[..|split|] == split;
  }

  /** The next bill takes what is left, up to what is due on it. */
  lemma OneMoreBill(bills: map<nat, Bill>, ids: seq<nat>, amount: nat, split: seq<Portion>, id: nat, take: nat)
    requires id in bills && (forall i :: 0 <= i < |ids| ==> ids[i] in bills) && Greedy(bills, ids, amount, split)
    requires var left := amount - SumOf(split); take == if left <= Due(bills[id]) then left else Due(bills[id])
    ensures Greedy(bills, ids + [id], amount, split + [Portion(id, take)])
  {
    OneMoreSums(bills, ids, split, id, take);
    if take > 0 {
      AllSpent(bills, ids, amount, split);
    }
  }

  /** While anything is left, every bill so far is cleared. */
  lemma {:induction false} AllSpent(bills: map<nat, Bill>, ids: seq<nat>, amount: nat, split: seq<Portion>)
    requires forall i :: 0 <= i < |ids| ==> ids[i] in bills
    requires Greedy(bills, ids, amount, split) && SumOf(split) < amount
    ensures forall i :: 0 <= i < |ids| ==> split[i].amount == Due(bills[ids[i]])
  {
    if i :| 0 <= i < |ids| && split[i].amount < Due(bills[ids[i]]) {
      LessThanDue(bills, ids, split, i);
    }
  }

  lemma {:induction false} LessThanDue(bills: map<nat, Bill>, ids: seq<nat>, split: seq<Portion>, k: nat)
    requires |split| == |ids| && forall i :: 0 <= i < |ids| ==> ids[i] in bills
    requires forall i :: 0 <= i < |ids| ==> split[i].bill == ids[i] && 0 <= split[i].amount <= Due(bills[ids[i]])
    ensures SumOf(split) <= TotalDue(bills, ids)
    ensures k < |ids| && split[k].amount < Due(bills[ids[k]]) ==> SumOf(split) < TotalDue(bills, ids)
  {
    if ids != [] {
      LessThanDue(bills, ids[..|ids| - 1], split[..|ids| - 1], k);
    }
  }

  /** There is only one such split. */
  lemma {:induction false} GreedyIsUnique(bills: map<nat, Bill>, ids: seq<nat>, amount: nat, a: seq<Portion>, b: seq<Portion>)
    requires forall i :: 0 <= i < |ids| ==> ids[i] in bills
    requires Greedy(bills, ids, amount, a) && Greedy(bills, ids, amount, b)
    ensures a == b
  {
    if k :| 0 <= k < |ids| && a[k] != b[k] {
      FirstDifference(bills, ids, a, b, amount, k);
    }
  }

  lemma {:induction false} FirstDifference(bills: map<nat, Bill>, ids: seq<nat>, a: seq<Portion>, b: seq<Portion>, amount: nat, k: nat)
    requires forall i :: 0 <= i < |ids| ==> ids[i] in bills
    requires Greedy(bills, ids, amount, a) && Greedy(bills, ids, amount, b)
    requires k < |ids| && a[k] != b[k]
    ensures false
  {
    if i :| 0 <= i < k && a[i] != b[i] {
      FirstDifference(bills, ids, a, b, amount, i);
    } else {
      var (less, more) := if a[k].amount < b[k].amount then (a, b) else (b, a);
      // Nothing comes after the bill that is not cleared, so the two sums differ.
      assert less[..|ids|] == less && more[..|ids|] == more;
      NothingLater(less, more, k, |ids|);
    }
  }

  lemma {:induction false} NothingLater(less: seq<Portion>, more: seq<Portion>, k: nat, n: nat)
    requires k < n <= |less| == |more|
    requires forall i :: 0 <= i < k ==> less[i] == more[i]
    requires less[k].amount < more[k].amount
    requires forall j :: k < j < n ==> less[j].amount <= 0 <= more[j].amount
    ensures SumOf(less[..n]) < SumOf(more[..n])
  {
    assert less[..n][..n - 1] == less[..n - 1] && more[..n][..n - 1] == more[..n - 1];
    if k == n - 1 {
      assert less[..k] == more[..k];
    } else {
      NothingLater(less, more, k, n - 1);
    }
  }

  // ---- confirming the suggestion ----

  /** The bills a checkpointed approval can pay, each once. */
  ghost predicate Candidates(books: Books, uid: string, ids: seq<nat>)
    requires uid in books.tasks
  {
    && (forall i, j :: 0 <= i < j < |ids| ==> ids[i] != ids[j])
    && (forall b :: b in ids <==> b in books.bills && Candidate(books, books.tasks[uid], Recorded(books.receipts, uid), true, b))
  }

  lemma SumOfAppended(ps: seq<Portion>, p: Portion)
    ensures SumOf(ps + [p]) == SumOf(ps) + p.amount
  {
    assert (ps + [p])[..|ps|] == ps;
  }

  lemma {:induction false} PositivePartAddsUp(ps: seq<Portion>)
    requires forall i :: 0 <= i < |ps| ==> ps[i].amount >= 0
    ensures SumOf(PositivePart(ps)) == SumOf(ps)
  {
    if ps != [] {
      var front, p := ps[..|ps| - 1], ps[|ps| - 1];
      PositivePartAddsUp(front);
      SumOfAppended(PositivePart(front), p);
      assert PositivePart(front) + [] == PositivePart(front);
    }
  }

  lemma {:induction false} PositivePartIsDistinct(ps: seq<Portion>)
    requires DistinctBills(ps)
    ensures DistinctBills(PositivePart(ps))
    ensures forall p :: p in PositivePart(ps) ==> p in ps
  {
    if ps != [] {
      var n := |ps| - 1;
      PositivePartIsDistinct(ps[..n]);
      assert forall p :: p in ps[..n] ==> p in ps && p.bill != ps[n].bill;
    }
  }

  lemma {:induction false} SomethingDue(bills: map<nat, Bill>, ids: seq<nat>)
    requires forall i :: 0 <= i < |ids| ==> ids[i] in bills && Due(bills[ids[i]]) > 0
    ensures TotalDue(bills, ids) >= |ids|
  {
    if ids != [] {
      SomethingDue(bills, ids[..|ids| - 1]);
    }
  }

  lemma SuggestionFits(books: Books, uid: string, ids: seq<nat>, split: seq<Portion>, used: seq<Portion>)
    requires uid in books.tasks && Candidates(books, uid, ids) && used == Recorded(books.receipts, uid)
    requires |split| == |ids|
    requires forall i :: 0 <= i < |ids| ==> split[i].bill == ids[i]
    requires forall i :: 0 <= i < |ids| && ids[i] in books.bills ==> split[i].amount <= Due(books.bills[ids[i]])
    ensures DistinctBills(PositivePart(split))
    ensures FirstMisfit(books, books.tasks[uid], used, true, PositivePart(split)) == None
  {
    var wanted := PositivePart(split);
    PositivePartIsDistinct(split);
    forall i | 0 <= i < |wanted|
      ensures Fits(books, books.tasks[uid], used, true, wanted[i])
    {
      assert wanted[i] in split;
      var k :| 0 <= k < |split| && split[k] == wanted[i];
      assert ids[k] in ids;
    }
    NoMisfitIff(books, books.tasks[uid], used, true, wanted);
  }

  lemma CandidatesAreDue(books: Books, uid: string, ids: seq<nat>)
    requires uid in books.tasks && Candidates(books, uid, ids)
    ensures forall i :: 0 <= i < |ids| ==> ids[i] in books.bills && Due(books.bills[ids[i]]) > 0
    ensures TotalDue(books.bills, ids) >= |ids|
  {
    assert forall i :: 0 <= i < |ids| ==> ids[i] in ids;
    SomethingDue(books.bills, ids);
  }

  /** With any bill to pay, the suggestion for what is left of a collection passes every check of
      an approval made from the same snapshot. */
  lemma SuggestionPassesTheChecks(books: Books, uid: string, ids: seq<nat>, split: seq<Portion>)
    requires Collecting(books.tasks, uid) && Confirmed(books.receipts, uid) < books.tasks[uid].collected
    requires ids != [] && Candidates(books, uid, ids) && forall i :: 0 <= i < |ids| ==> ids[i] in books.bills
    requires Greedy(books.bills, ids, books.tasks[uid].collected - Confirmed(books.receipts, uid), split)
    ensures Check(books, uid, split, Some(Confirmed(books.receipts, uid))) == Ok(PositivePart(split))
  {
    var used, wanted := Recorded(books.receipts, uid), PositivePart(split);
    ConfirmedIsTheSum(books.receipts, uid);
    SuggestionFits(books, uid, ids, split, used);
    PositivePartAddsUp(split);
    CandidatesAreDue(books, uid, ids);
    assert SumOf(wanted) > 0;
    FittingPortionsPass(books, uid, split, Some(SumOf(used)));
  }

  lemma ConfirmedIsTheSum(receipts: seq<Receipt>, uid: string)
    ensures SumOf(Recorded(receipts, uid)) == Confirmed(receipts, uid)
  {
    ServicesAgree(receipts, uid);
  }

  lemma FittingPortionsPass(books: Books, uid: string, allocations: seq<Portion>, expected: Option<int>)
    requires Collecting(books.tasks, uid)
    requires var used, wanted := Recorded(books.receipts, uid), PositivePart(allocations);
             && expected == Some(SumOf(used)) && DistinctBills(wanted)
             && 0 < SumOf(wanted) <= books.tasks[uid].collected - SumOf(used)
             && FirstMisfit(books, books.tasks[uid], used, true, wanted) == None
    ensures Check(books, uid, allocations, expected) == Ok(PositivePart(allocations))
  {
  }

  // ---- after the suggestion is confirmed ----

  function AmountOn(ps: seq<Portion>, bill: nat): int {
    if ps == [] then 0
    else AmountOn(ps[..|ps| - 1], bill) + if ps[|ps| - 1].bill == bill then ps[|ps| - 1].amount else 0
  }

  lemma {:induction false} BatchOnBill(uid: string, expected: Option<int>, ps: seq<Portion>, bill: nat)
    ensures SumOn(ReceiptsFor(uid, expected, ps), bill) == AmountOn(ps, bill)
  {
    if ps != [] {
      var front := ps[..|ps| - 1];
      BatchOnBill(uid, expected, front, bill);
      assert ReceiptsFor(uid, expected, ps)[..|front|] == ReceiptsFor(uid, expected, front);
    }
  }

  lemma AmountOnAppended(ps: seq<Portion>, p: Portion, bill: nat)
    ensures AmountOn(ps + [p], bill) == AmountOn(ps, bill) + if p.bill == bill then p.amount else 0
  {
    assert (ps + [p])[..|ps|] == ps;
  }

  lemma {:induction false} PositivePartOnBill(ps: seq<Portion>, bill: nat)
    requires forall i :: 0 <= i < |ps| ==> ps[i].amount >= 0
    ensures AmountOn(PositivePart(ps), bill) == AmountOn(ps, bill)
  {
    if ps != [] {
      var front, p := ps[..|ps| - 1], ps[|ps| - 1];
      PositivePartOnBill(front, bill);
      AmountOnAppended(PositivePart(front), p, bill);
      assert PositivePart(front) + [] == PositivePart(front);
    }
  }

  lemma {:induction false} AmountOnDistinct(ps: seq<Portion>, k: nat, bill: nat)
    requires DistinctBills(ps)
    ensures k < |ps| && ps[k].bill == bill ==> AmountOn(ps, bill) == ps[k].amount
    ensures (forall i :: 0 <= i < |ps| ==> ps[i].bill != bill) ==> AmountOn(ps, bill) == 0
  {
    if ps != [] {
      AmountOnDistinct(ps[..|ps| - 1], k, bill);
    }
  }

  /** What a bill has been paid after the suggestion is posted. */
  lemma PaidBySuggestion(books: Books, uid: string, expected: Option<int>, split: seq<Portion>, k: nat, bill: nat)
    requires bill in books.bills && DistinctBills(split) && forall i :: 0 <= i < |split| ==> split[i].amount >= 0
    requires forall i :: 0 <= i < |split| ==> split[i].bill in books.bills
    ensures var rs := ReceiptsFor(uid, expected, PositivePart(split));
            && PostAll(books, rs).bills.Keys == books.bills.Keys && PostAll(books, rs).tasks == books.tasks
            && PostAll(books, rs).bills[bill] == books.bills[bill].(paid := books.bills[bill].paid + AmountOn(split, bill))
    ensures k < |split| && split[k].bill == bill ==> AmountOn(split, bill) == split[k].amount
    ensures (forall i :: 0 <= i < |split| ==> split[i].bill != bill) ==> AmountOn(split, bill) == 0
  {
    var rs := ReceiptsFor(uid, expected, PositivePart(split));
    PositivePartIsDistinct(split);
    forall i | 0 <= i < |rs|
      ensures rs[i].bill in books.bills
    {
      assert PositivePart(split)[i] in split;
    }
    PostingAppends(books, rs);
    BatchOnBill(uid, expected, PositivePart(split), bill);
    PositivePartOnBill(split, bill);
    AmountOnDistinct(split, k, bill);
  }

  /** Once every candidate is paid what was due on it, none is left. */
  lemma NoCandidateLeft(books: Books, uid: string, ids: seq<nat>, split: seq<Portion>, expected: Option<int>,
                        used: seq<Portion>, bill: nat)
    requires uid in books.tasks && Candidates(books, uid, ids) && |split| == |ids|
    requires forall i :: 0 <= i < |ids| ==> ids[i] in books.bills && split[i] == Portion(ids[i], Due(books.bills[ids[i]]))
    ensures var books' := PostAll(books, ReceiptsFor(uid, expected, PositivePart(split)));
            uid in books'.tasks && !Candidate(books', books'.tasks[uid], used, true, bill)
  {
    var books' := PostAll(books, ReceiptsFor(uid, expected, PositivePart(split)));
    if bill in books.bills {
      if k :| 0 <= k < |ids| && ids[k] == bill {
        PaidBySuggestion(books, uid, expected, split, k, bill);
      } else {
        PaidBySuggestion(books, uid, expected, split, 0, bill);
        assert bill !in ids;
      }
    } else {
      assert forall i :: 0 <= i < |split| ==> split[i].bill in books.bills;
      NoNewBills(books, uid, expected, split);
    }
  }

  lemma NoNewBills(books: Books, uid: string, expected: Option<int>, split: seq<Portion>)
    requires DistinctBills(split) && forall i :: 0 <= i < |split| ==> split[i].bill in books.bills
    ensures var books' := PostAll(books, ReceiptsFor(uid, expected, PositivePart(split)));
            books'.bills.Keys == books.bills.Keys && books'.tasks == books.tasks
  {
    var rs := ReceiptsFor(uid, expected, PositivePart(split));
    PositivePartIsDistinct(split);
    forall i | 0 <= i < |rs|
      ensures rs[i].bill in books.bills
    {
      assert PositivePart(split)[i] in split;
    }
    PostingAppends(books, rs);
  }

  /** Confirming the suggestion leaves no cash of the collection, or no bill that could take more. */
  lemma SuggestionLeavesNothing(s: System, uid: string, ids: seq<nat>, split: seq<Portion>)
    requires Inv(s) && s.open == map[] && Collecting(s.books.tasks, uid)
    requires Confirmed(s.books.receipts, uid) < s.books.tasks[uid].collected
    requires ids != [] && Candidates(s.books, uid, ids) && forall i :: 0 <= i < |ids| ==> ids[i] in s.books.bills
    requires Greedy(s.books.bills, ids, s.books.tasks[uid].collected - Confirmed(s.books.receipts, uid), split)
    requires Confirm(s.books, uid, split, Some(Confirmed(s.books.receipts, uid))).Ok?
    ensures var books' := Confirm(s.books, uid, split, Some(Confirmed(s.books.receipts, uid))).value.books;
            && uid in books'.tasks
            && (|| Confirmed(books'.receipts, uid) == books'.tasks[uid].collected
                || forall b :: !Candidate(books', books'.tasks[uid], Recorded(books'.receipts, uid), true, b))
  {
    var books, expected := s.books, Some(Confirmed(s.books.receipts, uid));
    var wanted := PositivePart(split);
    SuggestionPassesTheChecks(books, uid, ids, split);
    ConfirmPosts(s, uid, split, expected);
    var books' := PostAll(books, ReceiptsFor(uid, expected, wanted));
    PositivePartAddsUp(split);
    NoNewBills(books, uid, expected, split);
    if Confirmed(books'.receipts, uid) != books'.tasks[uid].collected {
      EverythingPaid(books.bills, ids, split);
      forall b
        ensures !Candidate(books', books'.tasks[uid], Recorded(books'.receipts, uid), true, b)
      {
        NoCandidateLeft(books, uid, ids, split, expected, Recorded(books'.receipts, uid), b);
      }
    }
  }

  lemma EverythingPaid(bills: map<nat, Bill>, ids: seq<nat>, split: seq<Portion>)
    requires |split| == |ids| && forall i :: 0 <= i < |ids| ==> ids[i] in bills
    requires forall i :: 0 <= i < |ids| ==> split[i].bill == ids[i] && 0 <= split[i].amount <= Due(bills[ids[i]])
    requires SumOf(split) == TotalDue(bills, ids)
    ensures forall i :: 0 <= i < |ids| ==> split[i] == Portion(ids[i], Due(bills[ids[i]]))
  {
    forall i | 0 <= i < |ids|
      ensures split[i] == Portion(ids[i], Due(bills[ids[i]]))
    {
      LessThanDue(bills, ids, split, i);
    }
  }

  lemma ConfirmPosts(s: System, uid: string, allocations: seq<Portion>, expected: Option<int>)
    requires Inv(s) && s.open == map[] && Check(s.books, uid, allocations, expected) == Ok(PositivePart(allocations))
    requires Confirm(s.books, uid, allocations, expected).Ok?
    ensures var wanted := PositivePart(allocations);
            var books' := Confirm(s.books, uid, allocations, expected).value.books;
            && books' == PostAll(s.books, ReceiptsFor(uid, expected, wanted))
            && Confirmed(books'.receipts, uid) == Confirmed(s.books.receipts, uid) + SumOf(wanted)
  {
    var wanted := PositivePart(allocations);
    assert wanted[..|wanted|] == wanted;
    FirstRuns(s, uid, allocations, expected, wanted);
    AllInTurn(s, uid, allocations, expected, wanted, |wanted|);
    ConfirmIsARun(s, uid, allocations, expected);
  }
}
