/** The outbox of unsent changes, and the repair that collapses its duplicates. */
module Outbox {
  import opened Wrappers

  /** What a queued change is about. */
  datatype Target = Target(business: Option<int>, entity: string, entityId: int, operation: string)

  datatype QueueRow = QueueRow(id: nat, target: Target, payload: string, createdAt: nat, synced: bool,
                               attempts: nat, nextAttempt: Option<nat>)

  /** A pending row about a target. */
  predicate PendingFor(r: QueueRow, t: Target) {
    !r.synced && r.target == t
  }

  function FindPending(rows: seq<QueueRow>, t: Target): (i: nat)
    ensures i <= |rows| && (i < |rows| ==> PendingFor(rows[i], t))
    ensures forall j :: 0 <= j < i ==> !PendingFor(rows[j], t)
  {
    if rows == [] then 0 else if PendingFor(rows[0], t) then 0 else 1 + FindPending(rows[1..], t)
  }

  /** Refresh the pending row about the target, or queue a new one. */
  function Enqueued(rows: seq<QueueRow>, id: nat, t: Target, payload: string, now: nat): seq<QueueRow> {
    var i := FindPending(rows, t);
    if i < |rows| then rows[i := rows[i].(payload := payload)]
    else rows + [QueueRow(id, t, payload, now, false, 0, None)]
  }

  ghost predicate AtMostOnePending(rows: seq<QueueRow>) {
    forall i, j :: 0 <= i < j < |rows| && !rows[i].synced && !rows[j].synced ==> rows[i].target != rows[j].target
  }

  // ---- every way the queue changes ----

  datatype Change =
    | Queue(target: Target, payload: string, now: nat)
    | MarkSynced(i: nat)
    | BackOff(i: nat, attempts: nat, nextAttempt: Option<nat>)

  function After(rows: seq<QueueRow>, c: Change): seq<QueueRow> {
    match c
    case Queue(t, p, now) => Enqueued(rows, |rows|, t, p, now)
    case MarkSynced(i) => if i < |rows| then rows[i := rows[i].(synced := true)] else rows
    case BackOff(i, n, next) => if i < |rows| then rows[i := rows[i].(attempts := n, nextAttempt := next)] else rows
  }

  function Run(changes: seq<Change>): seq<QueueRow> {
    if changes == [] then [] else After(Run(changes[..|changes| - 1]), changes[|changes| - 1])
  }

  /** The payload queued last about a target. */
  function Newest(changes: seq<Change>, t: Target): Option<string> {
    if changes == [] then None
    else
      var last := changes[|changes| - 1];
      if last.Queue? && last.target == t then Some(last.payload) else Newest(changes[..|changes| - 1], t)
  }

  /** In every reachable queue at most one row is pending about a target, and it holds the payload
      queued last about it. */
  lemma {:induction false} ReachableQueues(changes: seq<Change>)
    ensures AtMostOnePending(Run(changes))
    ensures forall i :: 0 <= i < |Run(changes)| && !Run(changes)[i].synced ==>
              Newest(changes, Run(changes)[i].target) == Some(Run(changes)[i].payload)
  {
    if changes != [] {
      ReachableQueues(changes[..|changes| - 1]);
    }
  }

  /** The row as it was but for its payload: as old, as often tried, due when it was. */
  predicate OnlyPayload(r: QueueRow, r': QueueRow) {
    && r'.id == r.id && r'.target == r.target && r'.synced == r.synced && r'.createdAt == r.createdAt
    && r'.attempts == r.attempts && r'.nextAttempt == r.nextAttempt
  }

  function AfterAll(rows: seq<QueueRow>, changes: seq<Change>): seq<QueueRow> {
    if changes == [] then rows else After(AfterAll(rows, changes[..|changes| - 1]), changes[|changes| - 1])
  }

  /** The payload was queued about the target. */
  predicate WasQueued(changes: seq<Change>, t: Target, payload: string) {
    exists c :: 0 <= c < |changes| && changes[c].Queue? && changes[c].target == t && changes[c].payload == payload
  }

  lemma QueuedBefore(front: seq<Change>, last: Change, t: Target, payload: string)
    requires last.Queue?
    ensures WasQueued(front + [last], t, payload) <==> WasQueued(front, t, payload) || (last.target == t && last.payload == payload)
  {
    assert (front + [last])[|front|] == last;
    if WasQueued(front, t, payload) {
      var c :| 0 <= c < |front| && front[c].Queue? && front[c].target == t && front[c].payload == payload;
      assert (front + [last])[c] == front[c];
    }
  }

  /** However often changes are queued again, no row moves, is younger, or gets a fresh timer: only payloads
      of pending rows change, and only to what was queued about their target; new rows come last, untried. */
  lemma {:induction false} RequeuingKeepsTimers(rows: seq<QueueRow>, changes: seq<Change>)
    requires forall c :: 0 <= c < |changes| ==> changes[c].Queue?
    ensures var after := AfterAll(rows, changes);
            && |rows| <= |after|
            && (forall i :: 0 <= i < |rows| ==> OnlyPayload(rows[i], after[i]))
            && (forall i :: 0 <= i < |rows| && after[i].payload != rows[i].payload ==>
                              !rows[i].synced && WasQueued(changes, rows[i].target, after[i].payload))
            && forall i :: |rows| <= i < |after| ==> !after[i].synced && after[i].attempts == 0 && after[i].nextAttempt == None
  {
    if changes != [] {
      var front, last := changes[..|changes| - 1], changes[|changes| - 1];
      RequeuingKeepsTimers(rows, front);
      assert changes == front + [last];
      forall t, payload
        ensures WasQueued(changes, t, payload) <==> WasQueued(front, t, payload) || (last.target == t && last.payload == payload)
      {
        QueuedBefore(front, last, t, payload);
      }
    }
  }

  // ---- collapsing an arbitrary queue ----

  datatype Pair = Pair(target: Target, payload: string)

  /** The pending changes, oldest first. */
  function PendingPairs(rows: seq<QueueRow>): seq<Pair> {
    if rows == [] then []
    else
      var r := rows[|rows| - 1];
      PendingPairs(rows[..|rows| - 1]) + (if r.synced then [] else [Pair(r.target, r.payload)])
  }

  function NewestPayload(rows: seq<QueueRow>, t: Target, otherwise: string): string {
    if rows == [] then otherwise
    else if PendingFor(rows[|rows| - 1], t) then rows[|rows| - 1].payload
    else NewestPayload(rows[..|rows| - 1], t, otherwise)
  }

  function RefreshedRow(rows: seq<QueueRow>, r: QueueRow): QueueRow {
    if r.synced then r else r.(payload := NewestPayload(rows, r.target, r.payload))
  }

  function RefreshedTo(rows: seq<QueueRow>, n: nat): (updated: seq<QueueRow>)
    requires n <= |rows|
    ensures |updated| == n
  {
    if n == 0 then [] else RefreshedTo(rows, n - 1) + [RefreshedRow(rows, rows[n - 1])]
  }

  /** First statement: every pending row takes the payload of the newest pending row about its target. */
  function Refreshed(rows: seq<QueueRow>): seq<QueueRow> {
    RefreshedTo(rows, |rows|)
  }

  /** Second statement: of the pending rows about one target only the oldest stays. */
  function Oldest(rows: seq<QueueRow>): seq<QueueRow> {
    if rows == [] then []
    else
      var front, r := rows[..|rows| - 1], rows[|rows| - 1];
      Oldest(front) + (if !r.synced && FindPending(front, r.target) < |front| then [] else [r])
  }

  /** The queue as a table, in id order. */
  class SyncQueue {
    var rows: seq<QueueRow>

    constructor ()
      ensures rows == []
    {
      rows := [];
    }

    /** True when a row was added. */
    method QueueRowIfAbsent(t: Target, payload: string, now: nat) returns (added: bool)
      modifies this
      ensures rows == Enqueued(old(rows), |old(rows)|, t, payload, now)
      ensures added <==> forall i :: 0 <= i < |old(rows)| ==> !PendingFor(old(rows)[i], t)
    {
      var i := 0;
      while i < |rows| && !PendingFor(rows[i], t)
        invariant 0 <= i <= |rows| && rows == old(rows)
        invariant forall j :: 0 <= j < i ==> !PendingFor(rows[j], t)
      {
        i := i + 1;
      }
      var first := FindPending(rows, t);
      assert i == first;
      if i < |rows| {
        rows := rows[i := rows[i].(payload := payload)];
        return false;
      }
      rows := rows + [QueueRow(|rows|, t, payload, now, false, 0, None)];
      return true;
    }

    /** Collapses the pending duplicates of an arbitrary queue. */
    method Dedup()
      modifies this
      ensures rows == Oldest(Refreshed(old(rows)))
    {
      var updated := Refreshed(rows);
      var kept: seq<QueueRow> := [];
      var i := 0;
      while i < |updated|
        invariant 0 <= i <= |updated| && kept == Oldest(updated[..i])
      {
        assert updated[..i + 1][..i] == updated[..i];
        if updated[i].synced || FindPending(updated[..i], updated[i].target) == i {
          kept := kept + [updated[i]];
        }
        i := i + 1;
      }
      assert updated[..i] == updated;
      rows := kept;
    }
  }

  // ---- collapsing equals replaying ----

  /** Replaying a change into the list of pending changes. */
  function Upsert(q: seq<Pair>, p: Pair): seq<Pair> {
    if q == [] then [p]
    else if q[0].target == p.target then [p] + q[1..]
    else [q[0]] + Upsert(q[1..], p)
  }

  function Replay(ps: seq<Pair>): seq<Pair> {
    if ps == [] then [] else Upsert(Replay(ps[..|ps| - 1]), ps[|ps| - 1])
  }

  ghost predicate Mentions(q: seq<Pair>, t: Target) {
    exists i :: 0 <= i < |q| && q[i].target == t
  }

  ghost predicate DistinctTargets(q: seq<Pair>) {
    forall i, j :: 0 <= i < j < |q| ==> q[i].target != q[j].target
  }

  lemma {:induction false} PairsOfAppended(rows: seq<QueueRow>, r: QueueRow)
    ensures PendingPairs(rows + [r]) == PendingPairs(rows) + (if r.synced then [] else [Pair(r.target, r.payload)])
  {
    assert (rows + [r])[..|rows|] == rows;
  }

  /** Queueing a change does to the pending list just what replaying it does. */
  lemma {:induction false} QueueingIsUpserting(rows: seq<QueueRow>, id: nat, t: Target, payload: string, now: nat)
    ensures PendingPairs(Enqueued(rows, id, t, payload, now)) == Upsert(PendingPairs(rows), Pair(t, payload))
  {
    var i := FindPending(rows, t);
    NoPendingNoMention(rows, t, i);
    if i == |rows| {
      assert rows[..i] == rows;
      UpsertNew(PendingPairs(rows), Pair(t, payload));
      PairsOfAppended(rows, QueueRow(id, t, payload, now, false, 0, None));
    } else {
      RefreshedPairs(rows, i, payload, |rows|);
      assert rows[..|rows|] == rows;
      var rows' := rows[i := rows[i].(payload := payload)];
      assert rows'[..|rows|] == rows';
    }
  }

  lemma {:induction false} NoPendingNoMention(rows: seq<QueueRow>, t: Target, n: nat)
    requires n <= |rows| && forall j :: 0 <= j < n ==> !PendingFor(rows[j], t)
    ensures !Mentions(PendingPairs(rows[..n]), t)
  {
    if n > 0 {
      NoPendingNoMention(rows, t, n - 1);
      assert rows[..n][..n - 1] == rows[..n - 1];
    }
  }

  lemma {:induction false} UpsertNew(q: seq<Pair>, p: Pair)
    requires !Mentions(q, p.target)
    ensures Upsert(q, p) == q + [p]
  {
    if q != [] {
      assert q[0].target != p.target;
      forall i | 0 <= i < |q[1..]| ensures q[1..][i].target != p.target {
        assert q[1..][i] == q[i + 1];
      }
      UpsertNew(q[1..], p);
    }
  }

  lemma {:induction false} UpsertAt(q: seq<Pair>, p: Pair, i: nat)
    requires i < |q| && q[i].target == p.target && forall j :: 0 <= j < i ==> q[j].target != p.target
    ensures Upsert(q, p) == q[i := p]
  {
    if i > 0 {
      UpsertAt(q[1..], p, i - 1);
    }
  }

  lemma {:induction false} UpsertBefore(q: seq<Pair>, rest: seq<Pair>, p: Pair)
    requires Mentions(q, p.target)
    ensures Upsert(q + rest, p) == Upsert(q, p) + rest
  {
    if q[0].target == p.target {
      assert (q + rest)[1..] == q[1..] + rest;
    } else {
      var i :| 0 <= i < |q| && q[i].target == p.target;
      assert q[1..][i - 1] == q[i];
      UpsertBefore(q[1..], rest, p);
      assert (q + rest)[1..] == q[1..] + rest;
    }
  }

  lemma {:induction false} PendingIsMentioned(rows: seq<QueueRow>, i: nat, n: nat)
    requires i < n <= |rows| && !rows[i].synced
    ensures Mentions(PendingPairs(rows[..n]), rows[i].target)
  {
    assert rows[..n][..n - 1] == rows[..n - 1];
    var front, q := PendingPairs(rows[..n - 1]), PendingPairs(rows[..n]);
    if i < n - 1 {
      PendingIsMentioned(rows, i, n - 1);
      var k :| 0 <= k < |front| && front[k].target == rows[i].target;
      assert q[k] == front[k];
    } else {
      assert q[|q| - 1].target == rows[i].target;
    }
  }

  /** Changing the payload of the first pending row about a target is an upsert of the pending list. */
  lemma {:induction false} RefreshedPairs(rows: seq<QueueRow>, i: nat, payload: string, n: nat)
    requires i < n <= |rows| && !rows[i].synced
    requires forall j :: 0 <= j < i ==> !PendingFor(rows[j], rows[i].target)
    ensures var rows' := rows[i := rows[i].(payload := payload)];
            PendingPairs(rows'[..n]) == Upsert(PendingPairs(rows[..n]), Pair(rows[i].target, payload))
  {
    if i == n - 1 {
      RefreshedLast(rows, i, payload);
    } else {
      var rows' := rows[i := rows[i].(payload := payload)];
      var p, r, m := Pair(rows[i].target, payload), rows[n - 1], n - 1;
      var last := if r.synced then [] else [Pair(r.target, r.payload)];
      RefreshedPairs(rows, i, payload, m);
      PendingIsMentioned(rows, i, m);
      calc {
        PendingPairs(rows'[..m + 1]);
        { PairsOfNext(rows', m); }
        PendingPairs(rows'[..m]) + last;
        Upsert(PendingPairs(rows[..m]), p) + last;
        { UpsertBefore(PendingPairs(rows[..m]), last, p); }
        Upsert(PendingPairs(rows[..m]) + last, p);
        { PairsOfNext(rows, m); }
        Upsert(PendingPairs(rows[..m + 1]), p);
      }
    }
  }

  lemma PairsOfNext(rows: seq<QueueRow>, n: nat)
    requires n < |rows|
    ensures PendingPairs(rows[..n + 1]) ==
            PendingPairs(rows[..n]) + (if rows[n].synced then [] else [Pair(rows[n].target, rows[n].payload)])
  {
    assert rows[..n + 1] == rows[..n] + [rows[n]];
    PairsOfAppended(rows[..n], rows[n]);
  }

  lemma RefreshedLast(rows: seq<QueueRow>, i: nat, payload: string)
    requires i < |rows| && !rows[i].synced
    requires forall j :: 0 <= j < i ==> !PendingFor(rows[j], rows[i].target)
    ensures var rows' := rows[i := rows[i].(payload := payload)];
            PendingPairs(rows'[..i + 1]) == Upsert(PendingPairs(rows[..i + 1]), Pair(rows[i].target, payload))
  {
    var rows', r := rows[i := rows[i].(payload := payload)], rows[i];
    PairsOfNext(rows, i);
    PairsOfNext(rows', i);
    assert rows'[..i] == rows[..i];
    NoPendingNoMention(rows, r.target, i);
    var front := PendingPairs(rows[..i]);
    UpsertAt(front + [Pair(r.target, r.payload)], Pair(r.target, payload), |front|);
  }

  /** The pending list after collapsing, described directly: each target once, where it first
      appears, with its newest payload. */
  function Collapsed(rows: seq<QueueRow>, n: nat): seq<Pair>
    requires n <= |rows|
  {
    if n == 0 then []
    else
      var r := rows[n - 1];
      Collapsed(rows, n - 1) +
      (if r.synced || FindPending(rows[..n - 1], r.target) < n - 1 then []
       else [Pair(r.target, NewestPayload(rows, r.target, r.payload))])
  }

  lemma {:induction false} CollapsingGivesCollapsed(rows: seq<QueueRow>, n: nat)
    requires n <= |rows|
    ensures PendingPairs(Oldest(RefreshedTo(rows, n))) == Collapsed(rows, n)
  {
    if n == 0 {
    } else {
      var m := n - 1;
      CollapsingGivesCollapsed(rows, m);
      calc {
        PendingPairs(Oldest(RefreshedTo(rows, m + 1)));
        { CollapsingNext(rows, m); }
        PendingPairs(Oldest(RefreshedTo(rows, m))) + Added(rows, m);
        { CollapsedNext(rows, m); }
        Collapsed(rows, m + 1);
      }
    }
  }

  /** What the `n`th row adds to the collapsed list. */
  function Added(rows: seq<QueueRow>, n: nat): seq<Pair>
    requires n < |rows|
  {
    if rows[n].synced || FindPending(rows[..n], rows[n].target) < n then []
    else [Pair(rows[n].target, NewestPayload(rows, rows[n].target, rows[n].payload))]
  }

  lemma CollapsedNext(rows: seq<QueueRow>, n: nat)
    requires n < |rows|
    ensures Collapsed(rows, n + 1) == Collapsed(rows, n) + Added(rows, n)
  {
  }

  lemma {:induction false} RefreshingKeepsPending(rows: seq<QueueRow>, n: nat, t: Target)
    requires n <= |rows|
    ensures FindPending(RefreshedTo(rows, n), t) == FindPending(rows[..n], t)
  {
    if n > 0 {
      var r := rows[n - 1];
      RefreshingKeepsPending(rows, n - 1, t);
      assert rows[..n] == rows[..n - 1] + [r];
      assert PendingFor(RefreshedRow(rows, r), t) <==> PendingFor(r, t);
      FindAppended(RefreshedTo(rows, n - 1), RefreshedRow(rows, r), t);
      FindAppended(rows[..n - 1], r, t);
    }
  }

  lemma FindAppended(rows: seq<QueueRow>, r: QueueRow, t: Target)
    ensures FindPending(rows + [r], t) ==
            if FindPending(rows, t) < |rows| then FindPending(rows, t) else if PendingFor(r, t) then |rows| else |rows| + 1
  {
    var all := rows + [r];
    assert all[|rows|] == r && forall k :: 0 <= k < |rows| ==> all[k] == rows[k];
  }

  lemma PairsOfKept(kept: seq<QueueRow>, r: QueueRow, drop: bool)
    ensures PendingPairs(kept + if drop then [] else [r]) ==
            PendingPairs(kept) + if drop || r.synced then [] else [Pair(r.target, r.payload)]
  {
    if drop {
      assert kept + [] == kept;
    } else {
      PairsOfAppended(kept, r);
    }
  }

  lemma {:induction false} OldestAppended(rows: seq<QueueRow>, r: QueueRow)
    ensures Oldest(rows + [r]) == Oldest(rows) + if !r.synced && FindPending(rows, r.target) < |rows| then [] else [r]
  {
    var all := rows + [r];
    assert all[..|all| - 1] == rows && all[|all| - 1] == r;
  }

  lemma CollapsingNext(rows: seq<QueueRow>, n: nat)
    requires n < |rows|
    ensures PendingPairs(Oldest(RefreshedTo(rows, n + 1))) == PendingPairs(Oldest(RefreshedTo(rows, n))) + Added(rows, n)
  {
    var updated, r := RefreshedTo(rows, n), RefreshedRow(rows, rows[n]);
    RefreshingKeepsPending(rows, n, r.target);
    OldestAppended(updated, r);
    PairsOfKept(Oldest(updated), r, !r.synced && FindPending(updated, r.target) < n);
  }

  ghost predicate CollapsedTargets(rows: seq<QueueRow>, n: nat)
    requires n <= |rows|
  {
    && DistinctTargets(Collapsed(rows, n))
    && forall t :: Mentions(Collapsed(rows, n), t) <==> FindPending(rows[..n], t) < n
  }

  lemma FindInLonger(rows: seq<QueueRow>, n: nat, t: Target)
    requires n < |rows|
    ensures FindPending(rows[..n + 1], t) < n + 1 <==> FindPending(rows[..n], t) < n || PendingFor(rows[n], t)
  {
    assert forall k :: 0 <= k < n ==> rows[..n + 1][k] == rows[..n][k];
    assert rows[..n + 1][n] == rows[n];
  }

  lemma MentionsAppended(q: seq<Pair>, p: Pair, t: Target)
    ensures Mentions(q + [p], t) <==> Mentions(q, t) || p.target == t
  {
    var all := q + [p];
    assert all[|q|] == p && forall k :: 0 <= k < |q| ==> all[k] == q[k];
  }

  lemma {:induction false} CollapsedMentionsThePending(rows: seq<QueueRow>, n: nat)
    requires n <= |rows|
    ensures CollapsedTargets(rows, n)
  {
    if n > 0 {
      CollapsedMentionsThePending(rows, n - 1);
      var c, r := Collapsed(rows, n - 1), rows[n - 1];
      if !r.synced && FindPending(rows[..n - 1], r.target) == n - 1 {
        var p := Pair(r.target, NewestPayload(rows, r.target, r.payload));
        assert Collapsed(rows, n) == c + [p] && !Mentions(c, p.target);
        forall t
          ensures Mentions(Collapsed(rows, n), t) <==> FindPending(rows[..n], t) < n
        {
          MentionsAppended(c, p, t);
          FindInLonger(rows, n - 1, t);
        }
      } else {
        assert Collapsed(rows, n) == c;
        forall t
          ensures FindPending(rows[..n], t) < n <==> FindPending(rows[..n - 1], t) < n - 1
        {
          FindInLonger(rows, n - 1, t);
        }
      }
    }
  }

  /** One more row at the end: a synced row changes nothing, a pending one is an upsert. */
  lemma {:induction false} CollapsingOneMore(rows: seq<QueueRow>, x: QueueRow, n: nat)
    requires n <= |rows|
    ensures var c, d := Collapsed(rows, n), Collapsed(rows + [x], n);
            && |c| == |d|
            && forall k :: 0 <= k < |c| ==>
                 d[k] == if !x.synced && c[k].target == x.target then Pair(x.target, x.payload) else c[k]
  {
    if n > 0 {
      CollapsingOneMore(rows, x, n - 1);
      assert (rows + [x])[..n - 1] == rows[..n - 1];
      assert (rows + [x])[..|rows|] == rows;
    }
  }

  lemma {:induction false} CollapsedIsReplayed(rows: seq<QueueRow>)
    ensures Collapsed(rows, |rows|) == Replay(PendingPairs(rows))
  {
    if rows != [] {
      var front, x, n := rows[..|rows| - 1], rows[|rows| - 1], |rows| - 1;
      assert front + [x] == rows;
      CollapsedIsReplayed(front);
      CollapsingOneMore(front, x, n);
      CollapsedMentionsThePending(front, n);
      assert front[..n] == front;
      var c, d := Collapsed(front, n), Collapsed(rows, n);
      if x.synced {
        PairsOfAppended(front, x);
        assert d == c && d + [] == d;
        assert PendingPairs(front) + [] == PendingPairs(front);
      } else {
        var p := Pair(x.target, x.payload);
        var ps := PendingPairs(rows);
        PairsOfAppended(front, x);
        assert ps == PendingPairs(front) + [p];
        assert ps[..|ps| - 1] == PendingPairs(front);
        assert Replay(ps) == Upsert(c, p);
        if Mentions(c, x.target) {
          var k :| 0 <= k < |c| && c[k].target == x.target;
          UpsertAt(c, p, k);
          assert d == c[k := p];
        } else {
          UpsertNew(c, p);
          assert d == c;
        }
      }
    }
  }

  /** Collapsing an arbitrary queue leaves the same targets, payloads and order as replaying its
      pending rows, oldest first, into an empty queue. */
  lemma DedupEqualsReplay(rows: seq<QueueRow>)
    ensures PendingPairs(Oldest(Refreshed(rows))) == Replay(PendingPairs(rows))
    ensures DistinctTargets(PendingPairs(Oldest(Refreshed(rows))))
  {
    CollapsingGivesCollapsed(rows, |rows|);
    CollapsedIsReplayed(rows);
    CollapsedMentionsThePending(rows, |rows|);
  }

  /** The rows collapsing keeps: those already sent, and the oldest pending one about each target. */
  ghost predicate Survives(rows: seq<QueueRow>, i: nat) {
    i < |rows| && (rows[i].synced || FindPending(rows, rows[i].target) == i)
  }

  /** The survivors among the first rows, in order. */
  function Survivors(rows: seq<QueueRow>, n: nat): seq<QueueRow>
    requires n <= |rows|
  {
    if n == 0 then []
    else
      var r := rows[n - 1];
      Survivors(rows, n - 1) + if r.synced || FindPending(rows, r.target) == n - 1 then [RefreshedRow(rows, r)] else []
  }

  lemma FindInPrefix(rows: seq<QueueRow>, n: nat, t: Target, i: nat)
    requires i <= n < |rows| && PendingFor(rows[i], t)
    ensures FindPending(rows, t) == i <==> FindPending(rows[..n], t) == i
  {
    assert forall k :: 0 <= k < n ==> rows[..n][k] == rows[k];
  }

  /** The next row survives the collapse of the prefix exactly when it survives in the whole. */
  lemma NextSurvivesIff(rows: seq<QueueRow>, n: nat)
    requires n < |rows| && !rows[n].synced
    ensures FindPending(RefreshedTo(rows, n), rows[n].target) >= n <==> FindPending(rows, rows[n].target) == n
  {
    RefreshingKeepsPending(rows, n, rows[n].target);
    FindInPrefix(rows, n, rows[n].target, n);
  }

  lemma OldestNext(rows: seq<QueueRow>, n: nat)
    requires n < |rows|
    ensures Oldest(RefreshedTo(rows, n + 1)) ==
            Oldest(RefreshedTo(rows, n)) +
            if rows[n].synced || FindPending(rows, rows[n].target) == n then [RefreshedRow(rows, rows[n])] else []
  {
    OldestAppended(RefreshedTo(rows, n), RefreshedRow(rows, rows[n]));
    if !rows[n].synced {
      NextSurvivesIff(rows, n);
    }
  }

  ghost predicate Kept(rows: seq<QueueRow>, n: nat, kept: seq<QueueRow>)
    requires n <= |rows|
  {
    Oldest(RefreshedTo(rows, n)) == kept
  }

  lemma NextKept(rows: seq<QueueRow>, n: nat, kept: seq<QueueRow>)
    requires n < |rows| && Kept(rows, n, kept)
    ensures Kept(rows, n + 1, kept + if rows[n].synced || FindPending(rows, rows[n].target) == n then [RefreshedRow(rows, rows[n])] else [])
  {
    OldestNext(rows, n);
  }

  lemma {:induction false} SurvivorsAreKept(rows: seq<QueueRow>, n: nat)
    requires n <= |rows|
    ensures Kept(rows, n, Survivors(rows, n))
  {
    if n > 0 {
      SurvivorsAreKept(rows, n - 1);
      NextKept(rows, n - 1, Survivors(rows, n - 1));
    }
  }

  /** Collapsing a prefix keeps just the survivors of the whole that lie in it. */
  lemma OldestKeepsSurvivors(rows: seq<QueueRow>, n: nat)
    requires n <= |rows|
    ensures Oldest(RefreshedTo(rows, n)) == Survivors(rows, n)
  {
    SurvivorsAreKept(rows, n);
  }

  lemma {:induction false} SurvivorsSurvive(rows: seq<QueueRow>, x: QueueRow, n: nat)
    requires n <= |rows|
    ensures x in Survivors(rows, n) <==> exists i: nat :: i < n && Survives(rows, i) && RefreshedRow(rows, rows[i]) == x
  {
    if n > 0 {
      SurvivorsSurvive(rows, x, n - 1);
      if Survives(rows, n - 1) {
        assert Survivors(rows, n) == Survivors(rows, n - 1) + [RefreshedRow(rows, rows[n - 1])];
      } else {
        assert Survivors(rows, n) == Survivors(rows, n - 1) + [];
      }
    }
  }

  /** A row is left after collapsing exactly when it was already sent, or was the oldest pending one
      about its target; and a kept pending row has only its payload changed, to the newest one. */
  lemma CollapsingKeepsTheOldest(rows: seq<QueueRow>, x: QueueRow)
    ensures x in Oldest(Refreshed(rows)) <==> exists i: nat :: Survives(rows, i) && RefreshedRow(rows, rows[i]) == x
  {
    OldestKeepsSurvivors(rows, |rows|);
    SurvivorsSurvive(rows, x, |rows|);
  }
}
