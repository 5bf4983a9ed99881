/** A replica that follows the feed of one business.

    A pull is not atomic: the page of events is one query, the current state of each row of
    the page is another, and the answer travels before it is applied.  Transactions may
    commit between any two of these steps, and an answer may be lost. */
module FeedReplica {
  import opened Wrappers
  import opened FeedOwners
  import opened FeedModel

  /** What is shipped for an event: the row as it is when it is read, or a tombstone. */
  datatype Payload = Payload(key: Key, row: Option<Row>)

  datatype Pull = Idle | Reading(page: seq<Event>, more: bool, payloads: seq<Payload>)

  /** `retained` are the entities whose deletions a replica refuses to apply. */
  datatype Replica = Replica(business: Business, retained: set<string>, cursor: nat, rows: map<Key, Row>, pull: Pull)

  datatype Step =
    | Source(action: Action)
    | Query(limit: nat, page: seq<Event>, more: bool)
    | ReadRow
    | Deliver
    | Lose

  datatype System = System(db: Database, replica: Replica)

  ghost predicate After(events: set<Event>, b: Business, cursor: nat, e: Event) {
    e in events && e.business == b && e.revision > cursor
  }

  /** The answer of the paging query: the first `limit` events after the cursor, in revision order. */
  ghost predicate IsPage(events: set<Event>, b: Business, cursor: nat, limit: nat, page: seq<Event>, more: bool) {
    && |page| <= limit
    && (forall i :: 0 <= i < |page| ==> After(events, b, cursor, page[i]))
    && (forall i, j :: 0 <= i < j < |page| ==> page[i].revision < page[j].revision)
    && (forall e :: After(events, b, cursor, e) && e !in page ==>
          |page| == limit && forall i :: 0 <= i < |page| ==> page[i].revision < e.revision)
    && (more <==> exists e :: After(events, b, cursor, e) && e !in page)
  }

  /** The cursor that goes with a page. */
  function Last(page: seq<Event>, cursor: nat): nat {
    if page == [] then cursor else page[|page| - 1].revision
  }

  /** What a replica does with one payload: upsert or remove by uid. */
  function ApplyPayload(rows: map<Key, Row>, p: Payload, retained: set<string>): map<Key, Row> {
    if p.row.Some? then rows[p.key := p.row.value]
    else if p.key.entity in retained then rows
    else rows - {p.key}
  }

  function ApplyAll(rows: map<Key, Row>, ps: seq<Payload>, retained: set<string>): map<Key, Row> {
    if ps == [] then rows else ApplyPayload(ApplyAll(rows, ps[..|ps| - 1], retained), ps[|ps| - 1], retained)
  }

  /** The part of the source that `b` owns, row by row. */
  function View(rows: map<Key, Row>, b: Business, k: Key): Option<Row> {
    if k in rows && b in Owners(rows[k].owners) then Some(rows[k]) else None
  }

  /** A replica's row is right: it equals the source's, or the source deleted a retained row. */
  ghost predicate Right(db: Database, r: Replica, k: Key) {
    RowAt(r.rows, k) == View(db.rows, r.business, k) || (View(db.rows, r.business, k).None? && k.entity in r.retained)
  }

  ghost predicate Newer(events: set<Event>, b: Business, k: Key, revision: nat) {
    exists e :: After(events, b, revision, e) && e.key == k
  }

  ghost predicate CanStep(s: System, step: Step) {
    match step
    case Source(a) => Enabled(s.db, a)
    case Query(limit, page, more) =>
      s.replica.pull.Idle? && limit >= 1 && IsPage(s.db.events, s.replica.business, s.replica.cursor, limit, page, more)
    case ReadRow => s.replica.pull.Reading? && |s.replica.pull.payloads| < |s.replica.pull.page|
    case Deliver => s.replica.pull.Reading? && |s.replica.pull.payloads| == |s.replica.pull.page|
    case Lose => s.replica.pull.Reading?
  }

  function DoStep(s: System, step: Step): System
    requires CanStep(s, step)
  {
    var r := s.replica;
    match step
    case Source(a) => s.(db := Apply(s.db, a))
    case Query(_, page, more) => s.(replica := r.(pull := Reading(page, more, [])))
    case ReadRow =>
      var key := r.pull.page[|r.pull.payloads|].key;
      s.(replica := r.(pull := r.pull.(payloads := r.pull.payloads + [Payload(key, RowAt(s.db.rows, key))])))
    case Deliver =>
      s.(replica := r.(cursor := Last(r.pull.page, r.cursor), rows := ApplyAll(r.rows, r.pull.payloads, r.retained), pull := Idle))
    case Lose => s.(replica := r.(pull := Idle))
  }

  /** An unfinished pull: the page misses no event up to its end, and each payload read so far
      is still current or superseded by an event after the page. */
  ghost predicate PullOk(db: Database, r: Replica)
    requires r.pull.Reading?
  {
    var page, payloads := r.pull.page, r.pull.payloads;
    && |payloads| <= |page|
    && Last(page, r.cursor) <= Clock(db, r.business)
    && (forall i :: 0 <= i < |page| ==> After(db.events, r.business, r.cursor, page[i]))
    && (forall e :: After(db.events, r.business, r.cursor, e) ==> e in page || Last(page, r.cursor) < e.revision)
    && (forall i :: 0 <= i < |payloads| ==> PayloadOk(db, r, i))
  }

  ghost predicate PayloadOk(db: Database, r: Replica, i: nat)
    requires r.pull.Reading? && i < |r.pull.payloads| <= |r.pull.page|
  {
    var p := r.pull.payloads[i];
    && p.key == r.pull.page[i].key
    && (p.row == View(db.rows, r.business, p.key) || Newer(db.events, r.business, p.key, Last(r.pull.page, r.cursor)))
  }

  /** The convergence invariant: wherever the replica is wrong, an event above its cursor will say so. */
  ghost predicate ReplicaOk(db: Database, r: Replica) {
    && r.cursor <= Clock(db, r.business)
    && (forall k :: Right(db, r, k) || Newer(db.events, r.business, k, r.cursor))
    && (r.pull.Reading? ==> PullOk(db, r))
  }

  ghost predicate SystemInv(s: System) {
    Inv(s.db) && ReplicaOk(s.db, s.replica)
  }

  // ---- steps of the source ----

  /** A commit that changes what `b` sees of a row announces the row above every earlier revision. */
  lemma CommitAnnouncesChanges(db: Database, t: TxId, b: Business, k: Key)
    requires Inv(db) && Enabled(db, Commit(t))
    ensures var db' := Apply(db, Commit(t));
            View(db'.rows, b, k) != View(db.rows, b, k) ==> Newer(db'.events, b, k, Clock(db, b))
  {
    var db', tx := Apply(db, Commit(t)), db.open[t];
    if View(db'.rows, b, k) != View(db.rows, b, k) {
      assert TxOk(db, tx);
      assert RowAt(db'.rows, k) == Visible(db, tx, k);
      assert k in tx.rows && (Owned(RowAt(db.rows, k), b) || Owned(tx.rows[k], b));
      assert Announced(tx.events, b, k);
      var e :| e in tx.events && e.business == b && e.key == k;
      assert Dense(tx.events, b, Clock(db, b), TxClock(db, tx, b));
      assert After(db'.events, b, Clock(db, b), e);
    }
  }

  lemma SourceStepKeepsNewer(db: Database, a: Action, b: Business, k: Key, revision: nat)
    requires Inv(db) && Enabled(db, a) && Newer(db.events, b, k, revision)
    ensures Newer(Apply(db, a).events, b, k, revision)
  {
    RevisionsAppearInOrder(db, a, b);
    var e :| After(db.events, b, revision, e) && e.key == k;
    assert After(Apply(db, a).events, b, revision, e);
  }

  lemma SourceStepViews(db: Database, a: Action, b: Business, k: Key, revision: nat)
    requires Inv(db) && Enabled(db, a) && revision <= Clock(db, b)
    ensures View(Apply(db, a).rows, b, k) == View(db.rows, b, k) || Newer(Apply(db, a).events, b, k, revision)
  {
    if a.Commit? {
      CommitAnnouncesChanges(db, a.t, b, k);
      if Newer(Apply(db, a).events, b, k, Clock(db, b)) {
        var e :| After(Apply(db, a).events, b, Clock(db, b), e) && e.key == k;
        assert After(Apply(db, a).events, b, revision, e);
      }
    }
  }

  lemma SourceStepKeepsPullOk(db: Database, a: Action, r: Replica)
    requires Inv(db) && Enabled(db, a) && r.pull.Reading? && PullOk(db, r)
    ensures PullOk(Apply(db, a), r)
  {
    var db' := Apply(db, a);
    RevisionsAppearInOrder(db, a, r.business);
    forall e | After(db'.events, r.business, r.cursor, e)
      ensures e in r.pull.page || Last(r.pull.page, r.cursor) < e.revision
    {
      assert After(db.events, r.business, r.cursor, e) || e in db'.events - db.events;
    }
    forall i | 0 <= i < |r.pull.payloads|
      ensures PayloadOk(db', r, i)
    {
      assert PayloadOk(db, r, i);
      var k, last := r.pull.payloads[i].key, Last(r.pull.page, r.cursor);
      SourceStepViews(db, a, r.business, k, last);
      if Newer(db.events, r.business, k, last) {
        SourceStepKeepsNewer(db, a, r.business, k, last);
      }
    }
  }

  lemma SourceStepKeepsReplicaOk(db: Database, a: Action, r: Replica)
    requires Inv(db) && Enabled(db, a) && ReplicaOk(db, r)
    ensures ReplicaOk(Apply(db, a), r)
  {
    var db' := Apply(db, a);
    RevisionsAppearInOrder(db, a, r.business);
    forall k
      ensures Right(db', r, k) || Newer(db'.events, r.business, k, r.cursor)
    {
      SourceStepViews(db, a, r.business, k, r.cursor);
      if Newer(db.events, r.business, k, r.cursor) {
        SourceStepKeepsNewer(db, a, r.business, k, r.cursor);
      } else {
        assert Right(db, r, k);
      }
    }
    if r.pull.Reading? {
      SourceStepKeepsPullOk(db, a, r);
    }
  }

  // ---- steps of the replica ----

  lemma QueryKeepsReplicaOk(db: Database, r: Replica, limit: nat, page: seq<Event>, more: bool)
    requires Inv(db) && ReplicaOk(db, r) && limit >= 1 && IsPage(db.events, r.business, r.cursor, limit, page, more)
    ensures ReplicaOk(db, r.(pull := Reading(page, more, [])))
  {
    assert Dense(db.events, r.business, 0, Clock(db, r.business));
    var r' := r.(pull := Reading(page, more, []));
    if page != [] {
      assert After(db.events, r.business, r.cursor, page[|page| - 1]);
    }
    assert forall k :: Right(db, r', k) == Right(db, r, k);
  }

  lemma ReadRowKeepsReplicaOk(s: System)
    requires SystemInv(s) && CanStep(s, ReadRow)
    ensures ReplicaOk(s.db, DoStep(s, ReadRow).replica)
  {
    var db, r, r' := s.db, s.replica, DoStep(s, ReadRow).replica;
    var n := |r.pull.payloads|;
    assert After(db.events, r.business, r.cursor, r.pull.page[n]);
    assert forall k :: Right(db, r', k) == Right(db, r, k);
    forall i | 0 <= i < n + 1
      ensures PayloadOk(db, r', i)
    {
      if i < n {
        assert PayloadOk(db, r, i);
      }
    }
  }

  ghost predicate Touched(page: seq<Event>, n: nat, k: Key)
    requires n <= |page|
  {
    exists i :: 0 <= i < n && page[i].key == k
  }

  /** After the first `n` payloads, a row they mention is right or superseded after the page. */
  lemma {:induction false} PrefixApplied(db: Database, r: Replica, n: nat, k: Key)
    requires r.pull.Reading? && PullOk(db, r) && n <= |r.pull.payloads|
    ensures var rows := ApplyAll(r.rows, r.pull.payloads[..n], r.retained);
            if Touched(r.pull.page, n, k) then
              Right(db, r.(rows := rows), k) || Newer(db.events, r.business, k, Last(r.pull.page, r.cursor))
            else RowAt(rows, k) == RowAt(r.rows, k)
  {
    if n > 0 {
      var ps := r.pull.payloads[..n];
      assert ps[..n - 1] == r.pull.payloads[..n - 1];
      PrefixApplied(db, r, n - 1, k);
      assert PayloadOk(db, r, n - 1);
      if r.pull.page[n - 1].key == k {
        assert Touched(r.pull.page, n, k);
      }
    }
  }

  lemma DeliverKeepsReplicaOk(db: Database, r: Replica)
    requires Inv(db) && ReplicaOk(db, r) && r.pull.Reading? && |r.pull.payloads| == |r.pull.page|
    ensures ReplicaOk(db, r.(cursor := Last(r.pull.page, r.cursor), rows := ApplyAll(r.rows, r.pull.payloads, r.retained), pull := Idle))
  {
    var page, n := r.pull.page, |r.pull.page|;
    var rows, last := ApplyAll(r.rows, r.pull.payloads, r.retained), Last(page, r.cursor);
    var r' := r.(cursor := last, rows := rows, pull := Idle);
    assert r.pull.payloads[..n] == r.pull.payloads;
    forall k
      ensures Right(db, r', k) || Newer(db.events, r.business, k, last)
    {
      PrefixApplied(db, r, n, k);
      if Touched(page, n, k) {
        assert Right(db, r', k) == Right(db, r.(rows := rows), k);
      } else if !Right(db, r, k) {
        var e :| After(db.events, r.business, r.cursor, e) && e.key == k;
        assert e !in page;
        assert After(db.events, r.business, last, e);
      }
    }
  }

  /** Every step of the source and of the replica keeps the convergence invariant. */
  lemma StepKeepsSystemInv(s: System, step: Step)
    requires SystemInv(s) && CanStep(s, step)
    ensures SystemInv(DoStep(s, step))
  {
    match step
    case Source(a) => StepKeepsInv(s.db, a); SourceStepKeepsReplicaOk(s.db, a, s.replica);
    case Query(limit, page, more) => QueryKeepsReplicaOk(s.db, s.replica, limit, page, more);
    case ReadRow => ReadRowKeepsReplicaOk(s);
    case Deliver => DeliverKeepsReplicaOk(s.db, s.replica);
    case Lose => assert forall k :: Right(s.db, s.replica.(pull := Idle), k) == Right(s.db, s.replica, k);
  }
}
