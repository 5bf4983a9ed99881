/** The change feed as a protocol of concurrent transactions.

    A statement that writes a synced row fires a trigger.  For each owner of the row the
    trigger bumps the owner's clock, whose row stays locked until the transaction ends, and
    appends an event carrying the new revision.  Nothing of a transaction is visible to the
    others before it commits, and nothing of it remains if it aborts. */
module FeedModel {
  import opened Wrappers
  import opened FeedOwners

  /** Rows are known across databases by entity and uid. */
  datatype Key = Key(entity: string, uid: string)
  datatype Operation = INSERT | UPDATE | DELETE
  datatype Row = Row(owners: OwnerColumns, body: string)
  datatype Event = Event(business: Business, revision: nat, key: Key, operation: Operation)

  type TxId = nat

  /** The statement being executed: `todo` are the owners its trigger has still to announce it to. */
  datatype Statement = Statement(key: Key, operation: Operation, todo: seq<Business>)

  /** An open transaction: its own row versions (None: deleted), bumped clocks and appended events. */
  datatype Tx = Tx(rows: map<Key, Option<Row>>, clocks: map<Business, nat>, events: set<Event>, statement: Statement)

  /** The committed state and the transactions still open. */
  datatype Database = Database(rows: map<Key, Row>, clock: map<Business, nat>, events: set<Event>, open: map<TxId, Tx>)

  datatype Action =
    | Begin(t: TxId)
    | Write(t: TxId, key: Key, operation: Operation, row: Row)  // `row` is unused by a DELETE
    | Emit(t: TxId)
    | Commit(t: TxId)
    | Abort(t: TxId)

  const EMPTY_TX := Tx(map[], map[], {}, Statement(Key("", ""), INSERT, []))
  const EMPTY_DATABASE := Database(map[], map[], {}, map[])

  function Clock(db: Database, b: Business): nat {
    if b in db.clock then db.clock[b] else 0
  }

  /** A clock as a transaction sees it: its own bumps over the committed value. */
  function TxClock(db: Database, tx: Tx, b: Business): nat {
    if b in tx.clocks then tx.clocks[b] else Clock(db, b)
  }

  function RowAt(rows: map<Key, Row>, k: Key): Option<Row> {
    if k in rows then Some(rows[k]) else None
  }

  function Visible(db: Database, tx: Tx, k: Key): Option<Row> {
    if k in tx.rows then tx.rows[k] else RowAt(db.rows, k)
  }

  /** The committed rows after a transaction's versions replace them. */
  function Merge(rows: map<Key, Row>, versions: map<Key, Option<Row>>): (merged: map<Key, Row>)
    ensures forall k :: RowAt(merged, k) == if k in versions then versions[k] else RowAt(rows, k)
  {
    map k | k in rows.Keys + versions.Keys && (k in versions ==> versions[k].Some?) ::
      if k in versions then versions[k].value else rows[k]
  }

  ghost predicate Owned(r: Option<Row>, b: Business) {
    r.Some? && b in Owners(r.value.owners)
  }

  /** What the feed takes for granted of its writers: a row never loses an owner, and a uid that
      comes back belongs to everyone it was ever announced to. */
  ghost predicate KeepsOwners(db: Database, tx: Tx, a: Action)
    requires a.Write?
  {
    match a.operation
    case UPDATE => forall b :: Owned(Visible(db, tx, a.key), b) ==> b in Owners(a.row.owners)
    case INSERT => forall e :: e in db.events + tx.events && e.key == a.key ==> e.business in Owners(a.row.owners)
    case DELETE => true
  }

  ghost predicate Enabled(db: Database, a: Action) {
    if a.Begin? then a.t !in db.open
    else
      && a.t in db.open
      && var tx := db.open[a.t];
      match a
      case Write(t, key, op, row) =>
        && tx.statement.todo == []
        && (forall u :: u in db.open && u != t ==> key !in db.open[u].rows)      // the row lock
        && (op.INSERT? <==> Visible(db, tx, key).None?)
        && KeepsOwners(db, tx, a)
      case Emit(t) =>
        && tx.statement.todo != []
        && forall u :: u in db.open && u != t ==> tx.statement.todo[0] !in db.open[u].clocks  // the clock lock
      case Commit(_) => tx.statement.todo == []
      case _ => true
  }

  function AfterWrite(db: Database, tx: Tx, key: Key, op: Operation, row: Row): Tx
    requires op.DELETE? ==> Visible(db, tx, key).Some?
  {
    if op.DELETE? then
      tx.(rows := tx.rows[key := None],
          statement := Statement(key, op, EmitOwners(Visible(db, tx, key).value.owners)))
    else
      tx.(rows := tx.rows[key := Some(row)], statement := Statement(key, op, EmitOwners(row.owners)))
  }

  /** One call of the emit function: bump the clock, append the event. */
  function AfterEmit(db: Database, tx: Tx): Tx
    requires tx.statement.todo != []
  {
    var b := tx.statement.todo[0];
    var revision := TxClock(db, tx, b) + 1;
    tx.(clocks := tx.clocks[b := revision],
        events := tx.events + {Event(b, revision, tx.statement.key, tx.statement.operation)},
        statement := tx.statement.(todo := tx.statement.todo[1..]))
  }

  function Apply(db: Database, a: Action): Database
    requires Enabled(db, a)
  {
    match a
    case Begin(t) => db.(open := db.open[t := EMPTY_TX])
    case Write(t, key, op, row) => db.(open := db.open[t := AfterWrite(db, db.open[t], key, op, row)])
    case Emit(t) => db.(open := db.open[t := AfterEmit(db, db.open[t])])
    case Commit(t) =>
      var tx := db.open[t];
      Database(Merge(db.rows, tx.rows), db.clock + tx.clocks, db.events + tx.events, db.open - {t})
    case Abort(t) => db.(open := db.open - {t})
  }

  /** The events of `b` are exactly the revisions after `lo` up to `hi`, each once. */
  ghost predicate Dense(events: set<Event>, b: Business, lo: nat, hi: nat) {
    && lo <= hi
    && (forall e :: e in events && e.business == b ==> lo < e.revision <= hi)
    && (forall r :: lo < r <= hi ==> HasRevision(events, b, r))
    && (forall e, f :: e in events && f in events && e.business == f.business == b && e.revision == f.revision ==> e == f)
  }

  ghost predicate HasRevision(events: set<Event>, b: Business, r: nat) {
    exists e :: e in events && e.business == b && e.revision == r
  }

  ghost predicate Announced(events: set<Event>, b: Business, k: Key) {
    exists e :: e in events && e.business == b && e.key == k
  }

  /** Clocks and events of one transaction continue the committed ones without a gap. */
  ghost predicate ClocksOk(db: Database, tx: Tx) {
    forall b :: Dense(tx.events, b, Clock(db, b), TxClock(db, tx, b))
  }

  /** Every owner, past or future, of a row the transaction wrote has been told or is about to be. */
  ghost predicate WritesAnnounced(db: Database, tx: Tx) {
    && (tx.statement.todo != [] ==> tx.statement.key in tx.rows)
    && (forall e :: e in tx.events ==> e.key in tx.rows)
    && forall k, b :: k in tx.rows && (Owned(RowAt(db.rows, k), b) || Owned(tx.rows[k], b)) ==>
         Announced(tx.events, b, k) || (tx.statement.key == k && b in tx.statement.todo)
  }

  /** Whoever was told of a row that still exists owns it. */
  ghost predicate ToldAreOwners(db: Database, tx: Tx) {
    && (forall e :: e in db.events + tx.events && Visible(db, tx, e.key).Some? ==> Owned(Visible(db, tx, e.key), e.business))
    && (forall b :: b in tx.statement.todo && Visible(db, tx, tx.statement.key).Some? ==>
          Owned(Visible(db, tx, tx.statement.key), b))
  }

  ghost predicate TxOk(db: Database, tx: Tx) {
    ClocksOk(db, tx) && WritesAnnounced(db, tx) && ToldAreOwners(db, tx)
  }

  ghost predicate Apart(tx: Tx, other: Tx) {
    tx.clocks.Keys !! other.clocks.Keys && tx.rows.Keys !! other.rows.Keys
  }

  /** No two open transactions hold the same clock row or the same data row. */
  ghost predicate Exclusive(db: Database) {
    forall t, u :: t in db.open && u in db.open && t != u ==> Apart(db.open[t], db.open[u])
  }

  ghost predicate Inv(db: Database) {
    && (forall b :: Dense(db.events, b, 0, Clock(db, b)))
    && (forall e :: e in db.events && RowAt(db.rows, e.key).Some? ==> Owned(RowAt(db.rows, e.key), e.business))
    && (forall t :: t in db.open ==> TxOk(db, db.open[t]))
    && Exclusive(db)
  }

  // ---- every step keeps the invariant ----

  lemma EmitKeepsClocks(db: Database, tx: Tx)
    requires ClocksOk(db, tx) && tx.statement.todo != []
    ensures ClocksOk(db, AfterEmit(db, tx))
  {
    var tx', b := AfterEmit(db, tx), tx.statement.todo[0];
    var e := Event(b, TxClock(db, tx, b) + 1, tx.statement.key, tx.statement.operation);
    forall c
      ensures Dense(tx'.events, c, Clock(db, c), TxClock(db, tx', c))
    {
      assert Dense(tx.events, c, Clock(db, c), TxClock(db, tx, c));
      assert e in tx'.events;
      forall r | Clock(db, c) < r <= TxClock(db, tx', c)
        ensures HasRevision(tx'.events, c, r)
      {
        if !(c == b && r == e.revision) {
          assert HasRevision(tx.events, c, r);
        }
      }
    }
  }

  lemma EmitKeepsAnnounced(db: Database, tx: Tx)
    requires WritesAnnounced(db, tx) && tx.statement.todo != []
    ensures WritesAnnounced(db, AfterEmit(db, tx))
  {
    var tx', b := AfterEmit(db, tx), tx.statement.todo[0];
    var e := Event(b, TxClock(db, tx, b) + 1, tx.statement.key, tx.statement.operation);
    assert e in tx'.events;
    forall k, c | k in tx'.rows && (Owned(RowAt(db.rows, k), c) || Owned(tx'.rows[k], c))
      ensures Announced(tx'.events, c, k) || (tx'.statement.key == k && c in tx'.statement.todo)
    {
      if Announced(tx.events, c, k) {
        var f :| f in tx.events && f.business == c && f.key == k;
        assert f in tx'.events;
      } else {
        assert k == tx.statement.key && c in tx.statement.todo;
        assert c == b || c in tx'.statement.todo;
      }
    }
  }

  lemma EmitKeepsTold(db: Database, tx: Tx)
    requires ToldAreOwners(db, tx) && tx.statement.todo != []
    ensures ToldAreOwners(db, AfterEmit(db, tx))
  {
    var tx', b := AfterEmit(db, tx), tx.statement.todo[0];
    assert b in tx.statement.todo;
    assert forall c :: c in tx'.statement.todo ==> c in tx.statement.todo;
    forall e | e in db.events + tx'.events && Visible(db, tx', e.key).Some?
      ensures Owned(Visible(db, tx', e.key), e.business)
    {
      assert Visible(db, tx', e.key) == Visible(db, tx, e.key);
      assert e in db.events + tx.events || (e.business == b && e.key == tx.statement.key);
    }
  }

  lemma WriteKeepsTxOk(db: Database, a: Action)
    requires a.Write? && Enabled(db, a) && TxOk(db, db.open[a.t])
    ensures TxOk(db, AfterWrite(db, db.open[a.t], a.key, a.operation, a.row))
  {
    var tx := db.open[a.t];
    var tx' := AfterWrite(db, tx, a.key, a.operation, a.row);
    var written := if a.operation.DELETE? then Visible(db, tx, a.key).value.owners else a.row.owners;
    SeedingReachesTheTriggersOwners(written);
    assert forall c :: TxClock(db, tx', c) == TxClock(db, tx, c);
    forall k, b | k in tx'.rows && (Owned(RowAt(db.rows, k), b) || Owned(tx'.rows[k], b))
      ensures Announced(tx'.events, b, k) || (tx'.statement.key == k && b in tx'.statement.todo)
    {
      if k in tx.rows && (Owned(RowAt(db.rows, k), b) || Owned(tx.rows[k], b)) {
      } else {
        assert k == a.key;
      }
    }
  }

  lemma StepKeepsOthersOk(db: Database, a: Action, u: TxId)
    requires Inv(db) && Enabled(db, a) && u in db.open && (a.Begin? || a.t != u)
    ensures u in Apply(db, a).open && TxOk(Apply(db, a), db.open[u])
  {
    var db', tx := Apply(db, a), db.open[u];
    assert TxOk(db, tx);
    if a.Commit? {
      var done := db.open[a.t];
      assert TxOk(db, done);
      forall b
        ensures Dense(tx.events, b, Clock(db', b), TxClock(db', tx, b))
      {
        assert Dense(tx.events, b, Clock(db, b), TxClock(db, tx, b));
        assert Dense(done.events, b, Clock(db, b), TxClock(db, done, b));
      }
      forall k, b | k in tx.rows && (Owned(RowAt(db'.rows, k), b) || Owned(tx.rows[k], b))
        ensures Announced(tx.events, b, k) || (tx.statement.key == k && b in tx.statement.todo)
      {
        assert k !in done.rows;
        assert RowAt(db'.rows, k) == RowAt(db.rows, k);
      }
      forall e | e in db'.events + tx.events && Visible(db', tx, e.key).Some?
        ensures Owned(Visible(db', tx, e.key), e.business)
      {
        if e in done.events {
          assert e.key in done.rows && e.key !in tx.rows;
          assert Visible(db', tx, e.key) == Visible(db, done, e.key);
        } else if e.key in done.rows {
          assert e.key !in tx.rows;
          assert Visible(db', tx, e.key) == Visible(db, done, e.key);
        } else {
          assert Visible(db', tx, e.key) == Visible(db, tx, e.key);
        }
      }
      if tx.statement.todo != [] {
        assert Visible(db', tx, tx.statement.key) == Visible(db, tx, tx.statement.key);
      }
    } else {
      assert db'.rows == db.rows && db'.clock == db.clock && db'.events == db.events;
      OnlyCommittedStateMatters(db, db', tx);
    }
  }

  lemma OnlyCommittedStateMatters(db: Database, db': Database, tx: Tx)
    requires db'.rows == db.rows && db'.clock == db.clock && db'.events == db.events
    requires TxOk(db, tx)
    ensures TxOk(db', tx)
  {
    forall b
      ensures Dense(tx.events, b, Clock(db', b), TxClock(db', tx, b))
    {
      assert Clock(db', b) == Clock(db, b) && TxClock(db', tx, b) == TxClock(db, tx, b);
    }
    assert forall k :: Visible(db', tx, k) == Visible(db, tx, k);
  }

  lemma DenseUnion(old_: set<Event>, new_: set<Event>, b: Business, lo: nat, mid: nat, hi: nat)
    requires Dense(old_, b, lo, mid) && Dense(new_, b, mid, hi)
    ensures Dense(old_ + new_, b, lo, hi)
  {
    forall r | lo < r <= hi
      ensures HasRevision(old_ + new_, b, r)
    {
      if r <= mid {
        assert HasRevision(old_, b, r);
      } else {
        assert HasRevision(new_, b, r);
      }
    }
  }

  lemma CommitKeepsCommitted(db: Database, a: Action)
    requires Inv(db) && Enabled(db, a) && a.Commit?
    ensures var db' := Apply(db, a);
            && (forall b :: Dense(db'.events, b, 0, Clock(db', b)))
            && (forall e :: e in db'.events && RowAt(db'.rows, e.key).Some? ==> Owned(RowAt(db'.rows, e.key), e.business))
  {
    var db', tx := Apply(db, a), db.open[a.t];
    assert TxOk(db, tx);
    forall b
      ensures Dense(db'.events, b, 0, Clock(db', b))
    {
      assert Clock(db', b) == TxClock(db, tx, b);
      DenseUnion(db.events, tx.events, b, 0, Clock(db, b), Clock(db', b));
    }
    forall e | e in db'.events && RowAt(db'.rows, e.key).Some?
      ensures Owned(RowAt(db'.rows, e.key), e.business)
    {
      assert RowAt(db'.rows, e.key) == Visible(db, tx, e.key);
    }
  }

  lemma OwnStepStaysApart(db: Database, a: Action, u: TxId)
    requires Enabled(db, a) && (a.Write? || a.Emit?) && u in db.open && u != a.t
    requires Apart(db.open[a.t], db.open[u])
    ensures Apart(Apply(db, a).open[a.t], db.open[u])
  {
    var tx, tx' := db.open[a.t], Apply(db, a).open[a.t];
    if a.Write? {
      assert tx'.clocks == tx.clocks && tx'.rows.Keys == tx.rows.Keys + {a.key};
    } else {
      assert tx'.rows == tx.rows && tx'.clocks.Keys == tx.clocks.Keys + {tx.statement.todo[0]};
    }
  }

  lemma StepKeepsExclusive(db: Database, a: Action)
    requires Inv(db) && Enabled(db, a)
    ensures Exclusive(Apply(db, a))
  {
    var db' := Apply(db, a);
    forall t, u | t in db'.open && u in db'.open && t != u
      ensures Apart(db'.open[t], db'.open[u])
    {
      if a.Write? || a.Emit? {
        if t == a.t {
          OwnStepStaysApart(db, a, u);
        } else if u == a.t {
          OwnStepStaysApart(db, a, t);
        }
      }
    }
  }

  /** Every step of every transaction keeps the protocol invariant. */
  lemma StepKeepsInv(db: Database, a: Action)
    requires Inv(db) && Enabled(db, a)
    ensures Inv(Apply(db, a))
  {
    var db' := Apply(db, a);
    StepKeepsExclusive(db, a);
    if a.Commit? {
      CommitKeepsCommitted(db, a);
    } else {
      forall b ensures Dense(db'.events, b, 0, Clock(db', b)) {
        assert Clock(db', b) == Clock(db, b);
      }
    }
    forall u | u in db'.open
      ensures TxOk(db', db'.open[u])
    {
      if u == a.t {
        match a {
          case Begin(_) => assert TxOk(db, EMPTY_TX); OnlyCommittedStateMatters(db, db', EMPTY_TX);
          case Write(_, _, _, _) => WriteKeepsTxOk(db, a); OnlyCommittedStateMatters(db, db', db'.open[u]);
          case Emit(_) =>
            EmitKeepsClocks(db, db.open[u]);
            EmitKeepsAnnounced(db, db.open[u]);
            EmitKeepsTold(db, db.open[u]);
            OnlyCommittedStateMatters(db, db', db'.open[u]);
          case _ =>
        }
      } else {
        StepKeepsOthersOk(db, a, u);
      }
    }
  }

  // ---- runs ----

  ghost predicate Legal(db: Database, run: seq<Action>)
    decreases |run|
  {
    run == [] || (Enabled(db, run[0]) && Legal(Apply(db, run[0]), run[1..]))
  }

  function Run(db: Database, run: seq<Action>): Database
    requires Legal(db, run)
    decreases |run|
  {
    if run == [] then db else Run(Apply(db, run[0]), run[1..])
  }

  lemma {:induction false} RunKeepsInv(db: Database, run: seq<Action>)
    requires Inv(db) && Legal(db, run)
    ensures Inv(Run(db, run))
    decreases |run|
  {
    if run != [] {
      StepKeepsInv(db, run[0]);
      RunKeepsInv(Apply(db, run[0]), run[1..]);
    }
  }

  function Revisions(events: set<Event>, b: Business): set<nat> {
    set e | e in events && e.business == b :: e.revision
  }

  /** However many transactions write, interleave and abort, the committed events of a business
      are always the revisions 1, 2, ..., k, each exactly once, and its clock shows k. */
  lemma CommittedRevisionsAreDense(run: seq<Action>, b: Business)
    requires Legal(EMPTY_DATABASE, run)
    ensures var db := Run(EMPTY_DATABASE, run);
            && (forall r: nat :: r in Revisions(db.events, b) <==> 1 <= r <= Clock(db, b))
            && (forall e, f | e in db.events && f in db.events && e.business == f.business == b ::
                  e.revision == f.revision ==> e == f)
  {
    RunKeepsInv(EMPTY_DATABASE, run);
    var db := Run(EMPTY_DATABASE, run);
    assert Dense(db.events, b, 0, Clock(db, b));
    forall r: nat | 1 <= r <= Clock(db, b)
      ensures r in Revisions(db.events, b)
    {
      assert HasRevision(db.events, b, r);
    }
  }

  /** An event becomes visible only after every event of smaller revision: no step makes visible
      a revision at or below one already visible, and committed events never disappear. */
  lemma RevisionsAppearInOrder(db: Database, a: Action, b: Business)
    requires Inv(db) && Enabled(db, a)
    ensures db.events <= Apply(db, a).events && Clock(db, b) <= Clock(Apply(db, a), b)
    ensures forall e :: e in Apply(db, a).events - db.events && e.business == b ==> Clock(db, b) < e.revision
    ensures forall e :: e in db.events && e.business == b ==> e.revision <= Clock(db, b)
    ensures a.Abort? ==> Apply(db, a).events == db.events && Apply(db, a).clock == db.clock && Apply(db, a).rows == db.rows
  {
    assert Dense(db.events, b, 0, Clock(db, b));
    if a.Commit? {
      var tx := db.open[a.t];
      assert TxOk(db, tx);
      assert Dense(tx.events, b, Clock(db, b), TxClock(db, tx, b));
    }
  }
}
