/** The guard that stops lines from being appended to a document that is already full. */
module Overfill {
  import opened Wrappers

  /** One rupee, in paise. */
  const TOLERANCE := 100

  datatype Dialect = Postgres | Sqlite

  /** The trigger's test for one more line; the target is absent when the document is. */
  predicate Accepts(d: Dialect, target: Option<int>, current: int, line: int) {
    match d
    case Postgres => target == None || target == Some(0) || current + line <= target.value + TOLERANCE
    case Sqlite => !(target.Some? && target.value > 0 && current + line > target.value + TOLERANCE)
  }

  /** The dialects differ exactly on documents with a negative target, which only one of them
      guards. */
  lemma DialectsAgreeExactly(target: Option<int>)
    ensures (forall current, line :: Accepts(Postgres, target, current, line) <==> Accepts(Sqlite, target, current, line)) <==>
            target.None? || target.value >= 0
  {
    if target.Some? && target.value < 0 {
      assert !Accepts(Postgres, target, TOLERANCE, 0) && Accepts(Sqlite, target, TOLERANCE, 0);
    }
  }

  function Sum(lines: seq<int>): int {
    if lines == [] then 0 else Sum(lines[..|lines| - 1]) + lines[|lines| - 1]
  }

  function Inserted(d: Dialect, target: Option<int>, lines: seq<int>, line: int): seq<int> {
    if Accepts(d, target, Sum(lines), line) then lines + [line] else lines
  }

  /** A document after any number of attempts to append lines. */
  function InsertAll(d: Dialect, target: Option<int>, lines: seq<int>, more: seq<int>): seq<int> {
    if more == [] then lines
    else Inserted(d, target, InsertAll(d, target, lines, more[..|more| - 1]), more[|more| - 1])
  }

  /** A document whose target the dialect guards. */
  predicate Guarded(d: Dialect, target: Option<int>) {
    target.Some? && (target.value > 0 || (d == Postgres && target.value < 0))
  }

  lemma SumOfAppended(lines: seq<int>, line: int)
    ensures Sum(lines + [line]) == Sum(lines) + line
  {
    assert (lines + [line])[..|lines|] == lines;
  }

  /** However many lines are tried, a guarded document that is not overfilled never becomes so. */
  lemma {:induction false} NeverOverfilled(d: Dialect, target: Option<int>, lines: seq<int>, more: seq<int>)
    requires Guarded(d, target) && Sum(lines) <= target.value + TOLERANCE
    ensures Sum(InsertAll(d, target, lines, more)) <= target.value + TOLERANCE
  {
    if more != [] {
      NeverOverfilled(d, target, lines, more[..|more| - 1]);
      SumOfAppended(InsertAll(d, target, lines, more[..|more| - 1]), more[|more| - 1]);
    }
  }

  /** Nothing but a negative line goes onto a guarded document that is already overfilled. */
  lemma {:induction false} OverfilledTakesNothing(d: Dialect, target: Option<int>, lines: seq<int>, more: seq<int>)
    requires Guarded(d, target) && Sum(lines) > target.value + TOLERANCE
    requires forall i :: 0 <= i < |more| ==> more[i] >= 0
    ensures InsertAll(d, target, lines, more) == lines
  {
    if more != [] {
      OverfilledTakesNothing(d, target, lines, more[..|more| - 1]);
    }
  }

  lemma {:induction false} SumSplits(a: seq<int>, b: seq<int>)
    ensures Sum(a + b) == Sum(a) + Sum(b)
  {
    if b == [] {
      assert a + b == a;
    } else {
      SumSplits(a, b[..|b| - 1]);
      assert (a + b)[..|a + b| - 1] == a + b[..|b| - 1];
    }
  }

  lemma {:induction false} NoMoreThanTried(d: Dialect, target: Option<int>, lines: seq<int>, more: seq<int>)
    ensures |InsertAll(d, target, lines, more)| <= |lines| + |more|
  {
    if more != [] {
      NoMoreThanTried(d, target, lines, more[..|more| - 1]);
    }
  }

  /** One more line is taken in full exactly when the lines before it are, and the guard accepts it. */
  lemma OneMoreTakenIff(d: Dialect, target: Option<int>, lines: seq<int>, more: seq<int>, x: int)
    ensures InsertAll(d, target, lines, more + [x]) == lines + (more + [x]) <==>
            InsertAll(d, target, lines, more) == lines + more && Accepts(d, target, Sum(lines) + Sum(more), x)
  {
    assert (more + [x])[..|more|] == more;
    var before, after := InsertAll(d, target, lines, more), InsertAll(d, target, lines, more + [x]);
    NoMoreThanTried(d, target, lines, more);
    SumSplits(lines, more);
    var all := lines + (more + [x]);
    assert all == (lines + more) + [x];
    if after == all {
      assert |after| == |lines| + |more| + 1;
      assert after == before + [x];
      assert before == after[..|before|] && lines + more == all[..|lines| + |more|];
    }
  }

  ghost predicate StaysUnder(current: int, more: seq<int>, bound: int) {
    forall n :: 1 <= n <= |more| ==> current + Sum(more[..n]) <= bound
  }

  lemma OneMoreStaysUnder(current: int, more: seq<int>, x: int, bound: int)
    ensures StaysUnder(current, more + [x], bound) <==> StaysUnder(current, more, bound) && current + Sum(more) + x <= bound
  {
    var all := more + [x];
    SumOfAppended(more, x);
    assert all[..|all|] == all;
    forall n | 1 <= n <= |more|
      ensures all[..n] == more[..n]
    {
    }
  }

  /** Lines are all taken exactly when none of the running totals passes the bound. */
  lemma {:induction false} AllTakenIff(d: Dialect, target: Option<int>, lines: seq<int>, more: seq<int>)
    requires Guarded(d, target)
    ensures InsertAll(d, target, lines, more) == lines + more <==> StaysUnder(Sum(lines), more, target.value + TOLERANCE)
  {
    if more == [] {
      assert lines + more == lines;
    } else {
      var front, x := more[..|more| - 1], more[|more| - 1];
      assert front + [x] == more;
      AllTakenIff(d, target, lines, front);
      OneMoreTakenIff(d, target, lines, front, x);
      OneMoreStaysUnder(Sum(lines), front, x, target.value + TOLERANCE);
    }
  }

  lemma {:induction false} PrefixesOfNonNegative(more: seq<int>, n: nat)
    requires n <= |more| && forall i :: 0 <= i < |more| ==> more[i] >= 0
    ensures Sum(more[..n]) <= Sum(more)
    decreases |more| - n
  {
    if n < |more| {
      PrefixesOfNonNegative(more, n + 1);
      assert more[..n + 1][..n] == more[..n];
    } else {
      assert more[..n] == more;
    }
  }

  // ---- any order ----

  /** The sum of what the lines add, leaving out what negative lines take off. */
  function PositiveSum(lines: seq<int>): (sum: nat) {
    if lines == [] then 0
    else PositiveSum(lines[..|lines| - 1]) + if lines[|lines| - 1] > 0 then lines[|lines| - 1] else 0
  }

  function NegativePart(x: int): int {
    if x < 0 then x else 0
  }

  lemma {:induction false} PositiveSumSplits(a: seq<int>, b: seq<int>)
    ensures PositiveSum(a + b) == PositiveSum(a) + PositiveSum(b)
  {
    if b == [] {
      assert a + b == a;
    } else {
      PositiveSumSplits(a, b[..|b| - 1]);
      assert (a + b)[..|a + b| - 1] == a + b[..|b| - 1];
    }
  }

  lemma PositiveSumOfOne(x: int)
    ensures PositiveSum([x]) == if x > 0 then x else 0
  {
    assert [x][..0] == [];
  }

  /** Where one of the elements of a list is, in another order of them. */
  lemma WithoutOne(a: seq<int>, b: seq<int>) returns (k: nat)
    requires a != [] && multiset(a) == multiset(b)
    ensures k < |b| && b == (b[..k] + [a[|a| - 1]]) + b[k + 1..]
    ensures multiset(b[..k] + b[k + 1..]) == multiset(a[..|a| - 1])
  {
    var n, x := |a| - 1, a[|a| - 1];
    assert x in multiset(a);
    k :| 0 <= k < |b| && b[k] == x;
    assert b == (b[..k] + [x]) + b[k + 1..];
    assert a == a[..n] + [x];
    assert multiset(b[..k] + b[k + 1..]) == multiset(b) - multiset{x} == multiset(a[..n]);
  }

  lemma {:induction false} SamePositiveSums(a: seq<int>, b: seq<int>)
    requires multiset(a) == multiset(b)
    ensures PositiveSum(a) == PositiveSum(b)
  {
    if a == [] {
      assert multiset(b) == multiset{};
      assert b == [];
    } else {
      var n, x := |a| - 1, a[|a| - 1];
      var k := WithoutOne(a, b);
      SamePositiveSums(a[..n], b[..k] + b[k + 1..]);
      PositiveSumSplits(b[..k] + [x], b[k + 1..]);
      PositiveSumSplits(b[..k], [x]);
      PositiveSumSplits(b[..k], b[k + 1..]);
      PositiveSumOfOne(x);
    }
  }

  /** A running total is at most the positive lines, less the first line if it is negative. */
  lemma {:induction false} RunningTotal(order: seq<int>, n: nat)
    requires 1 <= n <= |order|
    ensures Sum(order[..n]) <= PositiveSum(order[..n]) + NegativePart(order[0])
  {
    assert order[..n][..n - 1] == order[..n - 1];
    if n == 1 {
      assert order[..0] == [];
    } else {
      RunningTotal(order, n - 1);
    }
  }

  lemma FewerPositive(order: seq<int>, n: nat)
    requires n <= |order|
    ensures PositiveSum(order[..n]) <= PositiveSum(order)
  {
    PositiveSumSplits(order[..n], order[n..]);
    assert order[..n] + order[n..] == order;
  }

  function Having(lines: seq<int>, positive: bool): seq<int> {
    if lines == [] then []
    else Having(lines[..|lines| - 1], positive) + if (lines[|lines| - 1] > 0) == positive then [lines[|lines| - 1]] else []
  }

  lemma {:induction false} HavingAll(lines: seq<int>)
    ensures multiset(Having(lines, true)) + multiset(Having(lines, false)) == multiset(lines)
  {
    if lines != [] {
      var front, last := lines[..|lines| - 1], lines[|lines| - 1];
      HavingAll(front);
      assert lines == front + [last];
      if last > 0 {
        OneMoreHaving(Having(front, true), Having(front, false), last);
      } else {
        OneMoreHaving(Having(front, false), Having(front, true), last);
      }
    }
  }

  lemma OneMoreHaving(a: seq<int>, b: seq<int>, x: int)
    ensures multiset(a + [x]) + multiset(b + []) == multiset(a) + multiset(b) + multiset{x}
  {
    assert b + [] == b;
  }

  lemma {:induction false} SumOfPositive(lines: seq<int>)
    ensures Sum(Having(lines, true)) == PositiveSum(lines)
  {
    if lines != [] {
      SumOfPositive(lines[..|lines| - 1]);
      SumOfAppended(Having(lines[..|lines| - 1], true), lines[|lines| - 1]);
      assert Having(lines[..|lines| - 1], true) + [] == Having(lines[..|lines| - 1], true);
    }
  }

  lemma {:induction false} HavingPositive(lines: seq<int>, k: nat)
    requires k < |Having(lines, true)|
    ensures Having(lines, true)[k] > 0
  {
    if k < |Having(lines[..|lines| - 1], true)| {
      HavingPositive(lines[..|lines| - 1], k);
    }
  }

  lemma {:induction false} NonePositive(lines: seq<int>, x: int)
    requires Having(lines, true) == [] && x in lines
    ensures x <= 0
  {
    if x != lines[|lines| - 1] {
      NonePositive(lines[..|lines| - 1], x);
    }
  }

  ghost predicate TakenInEveryOrder(d: Dialect, target: Option<int>, lines: seq<int>, more: seq<int>) {
    forall order: seq<int> :: multiset(order) == multiset(more) ==> InsertAll(d, target, lines, order) == lines + order
  }

  lemma FittingOrderIsTaken(d: Dialect, target: Option<int>, lines: seq<int>, more: seq<int>, order: seq<int>)
    requires Guarded(d, target) && multiset(order) == multiset(more)
    requires forall x :: x in more ==> Sum(lines) + PositiveSum(more) + NegativePart(x) <= target.value + TOLERANCE
    ensures InsertAll(d, target, lines, order) == lines + order
  {
    SamePositiveSums(order, more);
    forall n | 1 <= n <= |order|
      ensures Sum(lines) + Sum(order[..n]) <= target.value + TOLERANCE
    {
      RunningTotal(order, n);
      FewerPositive(order, n);
      assert order[0] in multiset(order);
      assert order[0] in more;
    }
    AllTakenIff(d, target, lines, order);
  }

  /** The positive lines first bring the running total to all of them. */
  lemma PositiveFirst(lines: seq<int>) returns (order: seq<int>, n: nat)
    requires Having(lines, true) != []
    ensures multiset(order) == multiset(lines) && 1 <= n <= |order| && Sum(order[..n]) == PositiveSum(lines)
  {
    HavingAll(lines);
    SumOfPositive(lines);
    order, n := Having(lines, true) + Having(lines, false), |Having(lines, true)|;
    assert order[..n] == Having(lines, true);
  }

  lemma OneFirst(lines: seq<int>, x: int) returns (order: seq<int>)
    requires x in lines
    ensures multiset(order) == multiset(lines) && order != [] && Sum(order[..1]) == x
  {
    var k :| 0 <= k < |lines| && lines[k] == x;
    order := [x] + (lines[..k] + lines[k + 1..]);
    assert lines == lines[..k] + [x] + lines[k + 1..];
    assert order[..1] == [] + [x];
    SumOfAppended([], x);
  }

  /** Some order brings the running total to all the positive lines, or to any single one. */
  lemma WorstOrder(lines: seq<int>, x: int) returns (order: seq<int>, n: nat)
    requires x in lines
    ensures multiset(order) == multiset(lines) && 1 <= n <= |order|
    ensures Sum(order[..n]) >= PositiveSum(lines) + NegativePart(x)
  {
    if Having(lines, true) != [] {
      order, n := PositiveFirst(lines);
    } else {
      order := OneFirst(lines, x);
      n := 1;
      SumOfPositive(lines);
      NonePositive(lines, x);
    }
  }

  /** Lines are taken in full in whatever order they arrive if and only if what is there, with all
      positive lines, and less any one of them that is negative, stays under the bound. */
  lemma TakenInEveryOrderIff(d: Dialect, target: Option<int>, lines: seq<int>, more: seq<int>)
    requires Guarded(d, target)
    ensures TakenInEveryOrder(d, target, lines, more) <==>
            forall x :: x in more ==> Sum(lines) + PositiveSum(more) + NegativePart(x) <= target.value + TOLERANCE
  {
    if forall x :: x in more ==> Sum(lines) + PositiveSum(more) + NegativePart(x) <= target.value + TOLERANCE {
      forall order: seq<int> | multiset(order) == multiset(more)
        ensures InsertAll(d, target, lines, order) == lines + order
      {
        FittingOrderIsTaken(d, target, lines, more, order);
      }
    } else {
      var x :| x in more && Sum(lines) + PositiveSum(more) + NegativePart(x) > target.value + TOLERANCE;
      var order, n := WorstOrder(more, x);
      AllTakenIff(d, target, lines, order);
      assert Sum(lines) + Sum(order[..n]) > target.value + TOLERANCE;
    }
  }

  lemma SomeIsPositive(lines: seq<int>) returns (x: int)
    requires PositiveSum(lines) > 0
    ensures x in lines && x > 0
  {
    SumOfPositive(lines);
    HavingAll(lines);
    HavingPositive(lines, 0);
    x := Having(lines, true)[0];
    assert x in multiset(Having(lines, true)) + multiset(Having(lines, false));
    assert x in multiset(lines);
  }

  /** For a document that is not overfilled: if and only if it has room for all positive lines. */
  lemma EveryOrderIsTakenIff(d: Dialect, target: Option<int>, lines: seq<int>, more: seq<int>)
    requires Guarded(d, target) && Sum(lines) <= target.value + TOLERANCE
    ensures TakenInEveryOrder(d, target, lines, more) <==> Sum(lines) + PositiveSum(more) <= target.value + TOLERANCE
  {
    TakenInEveryOrderIff(d, target, lines, more);
    if Sum(lines) + PositiveSum(more) > target.value + TOLERANCE {
      var x := SomeIsPositive(more);
    }
  }

  /** A document with its header amounts and its lines. */
  class Document {
    const dialect: Dialect
    const target: Option<int>
    var lines: seq<int>

    constructor (dialect: Dialect, total: int, cashDiscount: int, roundOff: int)
      ensures this.dialect == dialect && target == Some(total + cashDiscount - roundOff) && lines == []
    {
      this.dialect := dialect;
      target := Some(total + cashDiscount - roundOff);
      lines := [];
    }

    method Append(line: int) returns (ok: bool)
      modifies this`lines
      ensures ok <==> Accepts(dialect, target, Sum(old(lines)), line)
      ensures lines == if ok then old(lines) + [line] else old(lines)
      ensures Guarded(dialect, target) && Sum(old(lines)) <= target.value + TOLERANCE ==> Sum(lines) <= target.value + TOLERANCE
    {
      var current := 0;
      for i := 0 to |lines|
        invariant current == Sum(lines[..i]) && lines == old(lines)
      {
        assert lines[..i + 1][..i] == lines[..i];
        current := current + lines[i];
      }
      assert lines[..|lines|] == lines;
      ok := Accepts(dialect, target, current, line);
      if ok {
        SumOfAppended(lines, line);
        lines := lines + [line];
      }
    }
  }
}
