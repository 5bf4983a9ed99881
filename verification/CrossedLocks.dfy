/** Two parties that each take a fixed list of locks, one after the other and for as long as they
    run: exactly when they can block each other. */
module CrossedLocks {
  import opened Wrappers

  predicate Disjoint<T(==)>(p: seq<T>, q: seq<T>) {
    forall i, j :: 0 <= i < |p| && 0 <= j < |q| ==> p[i] != q[j]
  }

  /** The first position of `p` that `q` names too. */
  function FirstShared<T(==)>(p: seq<T>, q: seq<T>): (i: nat)
    ensures i <= |p| && (i < |p| ==> p[i] in q)
  {
    if p == [] || p[0] in q then 0 else 1 + FirstShared(p[1..], q)
  }

  /** The lists share a lock, and do not start with the same one of those they share. */
  predicate Crossed<T(==)>(p: seq<T>, q: seq<T>) {
    var i, j := FirstShared(p, q), FirstShared(q, p);
    i < |p| && j < |q| && p[i] != q[j]
  }

  /** One party has taken its first `i` locks and the other its first `j`, short of all. */
  predicate Beside<T(==)>(p: seq<T>, q: seq<T>, i: nat, j: nat) {
    0 < i < |p| && 0 < j < |q| && Disjoint(p[..i], q[..j])
  }

  /** One party has taken its first `i` locks, the other its first `j`, and each asks for one that
      the other has. */
  predicate Blocked<T(==)>(p: seq<T>, q: seq<T>, i: nat, j: nat) {
    && i < |p| && j < |q| && Disjoint(p[..i], q[..j])
    && p[i] in q[..j] && q[j] in p[..i]
  }

  lemma {:induction false} NothingSharedBefore<T>(p: seq<T>, q: seq<T>, k: nat)
    requires k < |p| && p[k] in q
    ensures FirstShared(p, q) <= k
  {
    if p[0] !in q {
      NothingSharedBefore(p[1..], q, k - 1);
    }
  }

  /** Parties that block each other have crossed lists. */
  lemma BlockedIsCrossed<T>(p: seq<T>, q: seq<T>, i: nat, j: nat)
    requires Blocked(p, q, i, j)
    ensures Crossed(p, q)
  {
    var a :| 0 <= a < i && p[..i][a] == q[j];
    var b :| 0 <= b < j && q[..j][b] == p[i];
    NothingSharedBefore(p, q, a);
    NothingSharedBefore(q, p, b);
    var x, y := FirstShared(p, q), FirstShared(q, p);
    assert p[..i][x] == p[x] && q[..j][y] == q[y];
  }

  /** Parties whose lists are crossed can block each other. */
  lemma CrossedCanBlock<T>(p: seq<T>, q: seq<T>) returns (i: nat, j: nat)
    requires Distinct(p) && Distinct(q) && Crossed(p, q)
    ensures Blocked(p, q, i, j)
  {
    var a, b := FirstShared(p, q), FirstShared(q, p);
    i :| 0 <= i < |p| && p[i] == q[b];
    NothingSharedBefore(p, q, i);
    assert p[..i][a] == p[a];
    var e :| 0 <= e < |q| && q[e] == p[a];
    j := FirstShared(q, p[..i]);
    NothingSharedBefore(q, p[..i], e);
    if j <= b {
      NothingSharedBefore(q, p, j);
    }
    assert q[..j][b] == q[b];
    forall k, l | 0 <= k < i && 0 <= l < j
      ensures p[..i][k] != q[..j][l]
    {
      if p[..i][k] == q[l] {
        NothingSharedBefore(q, p[..i], l);
      }
    }
  }
}
