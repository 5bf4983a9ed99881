/** What a replica may rely on over whole runs. */
module FeedConvergence {
  import opened Wrappers
  import opened FeedOwners
  import opened FeedModel
  import opened FeedReplica

  ghost predicate LegalRun(s: System, run: seq<Step>)
    decreases |run|
  {
    run == [] || (CanStep(s, run[0]) && LegalRun(DoStep(s, run[0]), run[1..]))
  }

  function RunSystem(s: System, run: seq<Step>): System
    requires LegalRun(s, run)
    decreases |run|
  {
    if run == [] then s else RunSystem(DoStep(s, run[0]), run[1..])
  }

  /** A replica that has never pulled. */
  function FreshReplica(b: Business, retained: set<string>): Replica {
    Replica(b, retained, 0, map[], Idle)
  }

  /** Every row `b` owns has been announced to `b` at least once. */
  ghost predicate FullyAnnounced(db: Database, b: Business) {
    forall k :: View(db.rows, b, k).Some? ==> Announced(db.events, b, k)
  }

  ghost predicate AllRight(s: System) {
    forall k :: Right(s.db, s.replica, k)
  }

  /** A replica at cursor zero satisfies the invariant as soon as every row has an event. */
  lemma FreshReplicaSatisfiesInv(db: Database, b: Business, retained: set<string>)
    requires Inv(db) && FullyAnnounced(db, b)
    ensures SystemInv(System(db, FreshReplica(b, retained)))
  {
    var r := FreshReplica(b, retained);
    assert Dense(db.events, b, 0, Clock(db, b));
    forall k
      ensures Right(db, r, k) || Newer(db.events, b, k, 0)
    {
      if View(db.rows, b, k).Some? {
        var e :| e in db.events && e.business == b && e.key == k;
        assert After(db.events, b, 0, e);
      }
    }
  }

  /** In every interleaving of transactions, pulls and lost answers, wherever the replica is wrong
      an event above its cursor announces the row. */
  lemma {:induction false} RunKeepsSystemInv(s: System, run: seq<Step>)
    requires SystemInv(s) && LegalRun(s, run)
    ensures SystemInv(RunSystem(s, run))
    decreases |run|
  {
    if run != [] {
      StepKeepsSystemInv(s, run[0]);
      RunKeepsSystemInv(DoStep(s, run[0]), run[1..]);
    }
  }

  /** From an empty database on, a replica whose cursor has reached the clock equals the source. */
  lemma DrainedReplicaEqualsSource(run: seq<Step>, b: Business, retained: set<string>)
    requires LegalRun(System(EMPTY_DATABASE, FreshReplica(b, retained)), run)
    ensures var s := RunSystem(System(EMPTY_DATABASE, FreshReplica(b, retained)), run);
            s.replica.cursor == Clock(s.db, s.replica.business) ==> AllRight(s)
  {
    var s0 := System(EMPTY_DATABASE, FreshReplica(b, retained));
    FreshReplicaSatisfiesInv(EMPTY_DATABASE, b, retained);
    RunKeepsSystemInv(s0, run);
    var s := RunSystem(s0, run);
    if s.replica.cursor == Clock(s.db, s.replica.business) {
      NothingNewerMeansRight(s);
    }
  }

  lemma NothingNewerMeansRight(s: System)
    requires SystemInv(s) && s.replica.cursor == Clock(s.db, s.replica.business)
    ensures AllRight(s)
  {
    var r := s.replica;
    assert Dense(s.db.events, r.business, 0, Clock(s.db, r.business));
    forall k
      ensures Right(s.db, r, k)
    {
      assert !Newer(s.db.events, r.business, k, r.cursor);
    }
  }

  lemma {:induction false} RetainedRowsSurvivePayloads(rows: map<Key, Row>, ps: seq<Payload>, retained: set<string>, k: Key)
    requires k.entity in retained && k in rows
    ensures k in ApplyAll(rows, ps, retained)
  {
    if ps != [] {
      RetainedRowsSurvivePayloads(rows, ps[..|ps| - 1], retained, k);
    }
  }

  /** Whatever happens, a replica never loses a row of an entity whose deletions it refuses. */
  lemma {:induction false} RetainedRowsStay(s: System, run: seq<Step>, k: Key)
    requires LegalRun(s, run) && k.entity in s.replica.retained && k in s.replica.rows
    ensures k in RunSystem(s, run).replica.rows
    decreases |run|
  {
    if run != [] {
      if run[0].Deliver? {
        RetainedRowsSurvivePayloads(s.replica.rows, s.replica.pull.payloads, s.replica.retained, k);
      }
      RetainedRowsStay(DoStep(s, run[0]), run[1..], k);
    }
  }

  /** Steps between the paging query and the delivery of its answer. */
  ghost predicate OnlyWritesAndReads(run: seq<Step>) {
    forall i :: 0 <= i < |run| ==> run[i].Source? || run[i].ReadRow?
  }

  lemma {:induction false} PullSurvives(s: System, run: seq<Step>)
    requires SystemInv(s) && s.replica.pull.Reading? && LegalRun(s, run) && OnlyWritesAndReads(run)
    ensures var s' := RunSystem(s, run);
            && s'.replica.pull.Reading? && s'.replica.pull.page == s.replica.pull.page
            && s'.replica.cursor == s.replica.cursor && s'.replica.business == s.replica.business
            && s.db.events <= s'.db.events
            && Clock(s.db, s.replica.business) <= Clock(s'.db, s.replica.business)
    decreases |run|
  {
    if run != [] {
      var mid := DoStep(s, run[0]);
      StepKeepsSystemInv(s, run[0]);
      if run[0].Source? {
        RevisionsAppearInOrder(s.db, run[0].action, s.replica.business);
      }
      PullSurvives(mid, run[1..]);
    }
  }

  /** Once a pull that reported no more is delivered, and nothing was published to the business
      since its query, the replica equals the source: although the rows were read one by one,
      while other transactions went on, and not taken from the events. */
  lemma CompletePullConverges(s: System, limit: nat, page: seq<Event>, run: seq<Step>)
    requires SystemInv(s) && CanStep(s, Query(limit, page, false))
    requires OnlyWritesAndReads(run) && LegalRun(DoStep(s, Query(limit, page, false)), run)
    requires var s' := RunSystem(DoStep(s, Query(limit, page, false)), run);
             CanStep(s', Deliver) && Clock(s'.db, s.replica.business) == Clock(s.db, s.replica.business)
    ensures AllRight(DoStep(RunSystem(DoStep(s, Query(limit, page, false)), run), Deliver))
  {
    var b := s.replica.business;
    var s1 := DoStep(s, Query(limit, page, false));
    StepKeepsSystemInv(s, Query(limit, page, false));
    RunKeepsSystemInv(s1, run);
    PullSurvives(s1, run);
    var s' := RunSystem(s1, run);
    StepKeepsSystemInv(s', Deliver);
    var end := DoStep(s', Deliver);
    assert Dense(s.db.events, b, 0, Clock(s.db, b));
    if Clock(s.db, b) > s.replica.cursor {
      assert HasRevision(s.db.events, b, Clock(s.db, b));
      var top :| top in s.db.events && top.business == b && top.revision == Clock(s.db, b);
      assert After(s.db.events, b, s.replica.cursor, top);
      assert top in page;
      LastIsGreatest(s.db.events, b, s.replica.cursor, limit, page, false, top);
    }
    assert end.replica.cursor == Clock(end.db, b);
    NothingNewerMeansRight(end);
  }

  lemma LastIsGreatest(events: set<Event>, b: Business, cursor: nat, limit: nat, page: seq<Event>, more: bool, e: Event)
    requires IsPage(events, b, cursor, limit, page, more) && e in page
    ensures e.revision <= Last(page, cursor) && After(events, b, cursor, page[|page| - 1])
  {
    var i :| 0 <= i < |page| && page[i] == e;
    assert i < |page| - 1 ==> page[i].revision < page[|page| - 1].revision;
  }

  // ---- what the feed takes for granted: a row never loses an owner ----

  /** Runs the trigger of the current statement to its end. */
  function EmitAll(db: Database, tx: Tx): Tx
    decreases |tx.statement.todo|
  {
    if tx.statement.todo == [] then tx else EmitAll(db, AfterEmit(db, tx))
  }

  /** One emit announces the record to its business, and to no other. */
  lemma OneEmitTells(db: Database, tx: Tx, b: Business)
    requires tx.statement.todo != []
    ensures AfterEmit(db, tx).statement.key == tx.statement.key
    ensures Announced(AfterEmit(db, tx).events, b, tx.statement.key) <==>
            b == tx.statement.todo[0] || Announced(tx.events, b, tx.statement.key)
  {
    var c, after := tx.statement.todo[0], AfterEmit(db, tx);
    var e := Event(c, TxClock(db, tx, c) + 1, tx.statement.key, tx.statement.operation);
    assert after.events == tx.events + {e} && e in after.events;
    if Announced(tx.events, b, tx.statement.key) {
      var f :| f in tx.events && f.business == b && f.key == tx.statement.key;
      assert f in after.events;
    }
  }

  lemma {:induction false} EmitAllTellsExactlyTodo(db: Database, tx: Tx, b: Business)
    requires ClocksOk(db, tx)
    ensures var done := EmitAll(db, tx);
            && ClocksOk(db, done) && done.rows == tx.rows
            && (Announced(done.events, b, tx.statement.key) <==>
                b in tx.statement.todo || Announced(tx.events, b, tx.statement.key))
    decreases |tx.statement.todo|
  {
    if tx.statement.todo != [] {
      var tx', c := AfterEmit(db, tx), tx.statement.todo[0];
      EmitKeepsClocks(db, tx);
      OneEmitTells(db, tx, b);
      EmitAllTellsExactlyTodo(db, tx', b);
      assert tx.statement.todo == [c] + tx'.statement.todo;
    }
  }

  /** One UPDATE of an existing row in a transaction of its own, whatever it does to the owners. */
  function UpdateAlone(db: Database, key: Key, row: Row): Database {
    var tx := EmitAll(db, AfterWrite(db, EMPTY_TX, key, UPDATE, row));
    Database(Merge(db.rows, tx.rows), db.clock + tx.clocks, db.events + tx.events, db.open)
  }

  /** An update keeps a caught-up replica of `b` on course exactly when it does not take the row
      away from `b`: the trigger announces the new owners only. */
  lemma UpdateMustKeepTheOwner(db: Database, key: Key, row: Row, r: Replica)
    requires Inv(db) && key in db.rows && r.pull.Idle?
    requires r.cursor == Clock(db, r.business) && key.entity !in r.retained
    requires forall k :: RowAt(r.rows, k) == View(db.rows, r.business, k)
    ensures RowAt(UpdateAlone(db, key, row).rows, key) == Some(row)
    ensures var db' := UpdateAlone(db, key, row);
            Right(db', r, key) || Newer(db'.events, r.business, key, r.cursor) <==>
            (Owned(RowAt(db.rows, key), r.business) ==> r.business in Owners(row.owners))
  {
    var db', b := UpdateAlone(db, key, row), r.business;
    var tx := AfterWrite(db, EMPTY_TX, key, UPDATE, row);
    assert ClocksOk(db, tx) by {
      forall c ensures Dense(tx.events, c, Clock(db, c), TxClock(db, tx, c)) { }
    }
    EmitAllTellsExactlyTodo(db, tx, b);
    SeedingReachesTheTriggersOwners(row.owners);
    var done := EmitAll(db, tx);
    assert Dense(db.events, b, 0, Clock(db, b));
    assert Dense(done.events, b, Clock(db, b), TxClock(db, done, b));
    assert RowAt(db'.rows, key) == Some(row);
    if b in Owners(row.owners) {
      assert Announced(done.events, b, key);
      var e :| e in done.events && e.business == b && e.key == key;
      assert After(db'.events, b, r.cursor, e);
    } else {
      assert !Announced(done.events, b, key);
      assert !Newer(db'.events, b, key, r.cursor);
    }
  }
}
