/** Waiting for locks, and why taking them in ascending order cannot deadlock.

    Two parts of the system take several row locks in one statement: the change-feed
    triggers take the clock rows of a shared record, and the planner takes the invoice
    rows of a task.  Both rely on "deterministic lock order". */
module LockOrder {

  /** What every transaction holds, and the lock each blocked one asks for. */
  datatype Waiting<!T> = Waiting(holds: map<T, set<int>>, asks: map<T, int>)

  /** `t` cannot go on before `u` ends. */
  ghost predicate WaitsFor<T>(w: Waiting<T>, t: T, u: T) {
    t != u && t in w.asks && u in w.holds && w.asks[t] in w.holds[u]
  }

  /** Each transaction of `c` waits for the next one, the last for the first. */
  ghost predicate WaitCycle<T>(w: Waiting<T>, c: seq<T>) {
    |c| > 0 && forall i :: 0 <= i < |c| ==> WaitsFor(w, c[i], c[if i + 1 < |c| then i + 1 else 0])
  }

  lemma PairWaits<T>(w: Waiting<T>, t: T, u: T)
    requires WaitCycle(w, [t, u])
    ensures WaitsFor(w, t, u) && WaitsFor(w, u, t)
  {
    var c := [t, u];
    assert WaitsFor(w, c[0], c[1]) && WaitsFor(w, c[1], c[0]);
  }

  /** A blocked transaction asks only for a lock above every lock it holds. */
  ghost predicate Ascending<T>(w: Waiting<T>) {
    forall t, h :: t in w.asks && t in w.holds && h in w.holds[t] ==> h < w.asks[t]
  }

  /** Those of `c` do, by some ranking of the locks. */
  ghost predicate AscendingAlong<T>(w: Waiting<T>, c: seq<T>, rank: int -> int) {
    forall i, h :: 0 <= i < |c| && c[i] in w.asks && c[i] in w.holds && h in w.holds[c[i]] ==> rank(h) < rank(w.asks[c[i]])
  }

  lemma AskedIsHeld<T>(w: Waiting<T>, c: seq<T>, rank: int -> int, i: nat, j: nat)
    requires AscendingAlong(w, c, rank) && i < |c| && j < |c| && WaitsFor(w, c[i], c[j]) && c[j] in w.asks
    ensures rank(w.asks[c[i]]) < rank(w.asks[c[j]])
  {
    var h := w.asks[c[i]];
    assert h in w.holds[c[j]];
  }

  lemma {:induction false} AsksGrowAlongAChain<T>(w: Waiting<T>, c: seq<T>, rank: int -> int, n: nat)
    requires WaitCycle(w, c) && AscendingAlong(w, c, rank) && n < |c|
    ensures c[0] in w.asks && c[n] in w.asks && rank(w.asks[c[0]]) + n <= rank(w.asks[c[n]])
  {
    assert WaitsFor(w, c[0], c[if 1 < |c| then 1 else 0]);
    if n > 0 {
      AsksGrowAlongAChain(w, c, rank, n - 1);
      assert WaitsFor(w, c[n - 1], c[n]);
      assert WaitsFor(w, c[n], c[if n + 1 < |c| then n + 1 else 0]);
      AskedIsHeld(w, c, rank, n - 1, n);
    }
  }

  /** Transactions that take locks in ascending rank never wait in a cycle, of any length. */
  lemma AscendingNeverCycles<T>(w: Waiting<T>, c: seq<T>, rank: int -> int)
    requires AscendingAlong(w, c, rank)
    ensures !WaitCycle(w, c)
  {
    if WaitCycle(w, c) {
      AsksGrowAlongAChain(w, c, rank, |c| - 1);
      assert WaitsFor(w, c[|c| - 1], c[0]);
      AskedIsHeld(w, c, rank, |c| - 1, 0);
    }
  }

  /** Ascending lock order admits no cycle of waiting transactions, of any length. */
  lemma AscendingLocksNeverDeadlock<T>(w: Waiting<T>, c: seq<T>)
    requires Ascending(w)
    ensures !WaitCycle(w, c)
  {
    AscendingNeverCycles(w, c, l => l);
  }
}
