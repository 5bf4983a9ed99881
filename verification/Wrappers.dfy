/** Values that may be absent, results that may be refusals, and what modules share about lists. */
module Wrappers {
  datatype Option<+T> = None | Some(value: T)

  datatype Result<+T, +E> = Ok(value: T) | Err(error: E)

  /** A missing number counts as zero. */
  function OrZero(x: Option<int>): int {
    if x.Some? then x.value else 0
  }

  predicate Distinct<T(==)>(s: seq<T>) {
    forall i, j :: 0 <= i < j < |s| ==> s[i] != s[j]
  }

  function SetOf<T>(s: seq<T>): set<T> {
    set x | x in s
  }

  lemma SameWithoutOne<T>(x: multiset<T>, y: multiset<T>, e: T)
    requires x + multiset{e} == y + multiset{e}
    ensures x == y
  {
    forall f
      ensures x[f] == y[f]
    {
      assert (x + multiset{e})[f] == (y + multiset{e})[f];
    }
  }

  lemma OneAmong<T>(a: seq<T>, e: T, b: seq<T>)
    ensures multiset(a + [e] + b) == multiset(a + b) + multiset{e}
  {
    assert a + [e] + b == a + ([e] + b);
  }

  lemma WithoutOne<T>(a: seq<T>, b: seq<T>) returns (b1: seq<T>, b2: seq<T>)
    requires a != [] && multiset(a) == multiset(b)
    ensures b == b1 + [a[|a| - 1]] + b2 && multiset(a[..|a| - 1]) == multiset(b1 + b2)
  {
    var front, last := a[..|a| - 1], a[|a| - 1];
    assert a == front + [last] + [] && front + [] == front;
    OneAmong(front, last, []);
    assert last in multiset(b);
    var k :| 0 <= k < |b| && b[k] == last;
    b1, b2 := b[..k], b[k + 1..];
    assert b == b1 + [last] + b2;
    OneAmong(b1, last, b2);
    SameWithoutOne(multiset(front), multiset(b1 + b2), last);
  }
}
