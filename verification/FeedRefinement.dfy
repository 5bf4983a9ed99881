/** The sequential store refines the protocol: what its trigger leaves behind is what one
    transaction of the protocol, run alone, leaves behind. */
module FeedRefinement {
  import opened Wrappers
  import opened FeedOwners
  import opened FeedModel
  import opened FeedStore

  function Emits(n: nat): seq<Action> {
    if n == 0 then [] else [Emit(0)] + Emits(n - 1)
  }

  /** Transaction 0 alone over a settled store, having emitted what separates `log` from `now`. */
  ghost predicate Midway(db: Database, log: Log, now: Log) {
    && db.open.Keys == {0}
    && db.clock == log.clock && db.events == EventSet(log.events)
    && db.clock + db.open[0].clocks == now.clock
    && db.events + db.open[0].events == EventSet(now.events)
  }

  lemma OneEmit(db: Database, log: Log, now: Log)
    requires Midway(db, log, now) && db.open[0].statement.todo != []
    ensures Enabled(db, Emit(0))
    ensures var tx := db.open[0];
            Midway(Apply(db, Emit(0)), log, Emitted(now, tx.statement.todo[0], tx.statement.key, tx.statement.operation))
  {
    var tx := db.open[0];
    var b := tx.statement.todo[0];
    var now' := Emitted(now, b, tx.statement.key, tx.statement.operation);
    assert TxClock(db, tx, b) == ClockOf(now, b);
    assert EventSet(now'.events) == EventSet(now.events) + {now'.events[|now.events|]};
    var db' := Apply(db, Emit(0));
    assert db'.events + db'.open[0].events == db.events + tx.events + {now'.events[|now.events|]};
  }

  /** Emitting to the remaining owners finishes the trigger. */
  lemma {:induction false} AllEmits(db: Database, log: Log, start: Log, owners: seq<Business>, done: nat)
    requires done <= |owners| && 0 in db.open
    requires var st := db.open[0].statement;
             st.todo == owners[done..] && Midway(db, log, EmittedToAll(start, owners[..done], st.key, st.operation))
    ensures Legal(db, Emits(|owners| - done))
    ensures var st, db' := db.open[0].statement, Run(db, Emits(|owners| - done));
            && db'.rows == db.rows && Midway(db', log, EmittedToAll(start, owners, st.key, st.operation))
            && db'.open[0].rows == db.open[0].rows && db'.open[0].statement.todo == []
    decreases |owners| - done
  {
    var st := db.open[0].statement;
    if done == |owners| {
      assert owners[..done] == owners;
    } else {
      var now := EmittedToAll(start, owners[..done], st.key, st.operation);
      OneEmit(db, log, now);
      assert owners[..done + 1][..done] == owners[..done];
      assert owners[done..][1..] == owners[done + 1..];
      AllEmits(Apply(db, Emit(0)), log, start, owners, done + 1);
      assert Emits(|owners| - done)[1..] == Emits(|owners| - done - 1);
    }
  }

  lemma Prepend(db: Database, a: Action, rest: seq<Action>)
    requires Enabled(db, a) && Legal(Apply(db, a), rest)
    ensures Legal(db, [a] + rest) && Run(db, [a] + rest) == Run(Apply(db, a), rest)
  {
    assert ([a] + rest)[1..] == rest;
  }

  lemma {:induction false} Append(db: Database, run: seq<Action>, a: Action)
    requires Legal(db, run) && Enabled(Run(db, run), a)
    ensures Legal(db, run + [a]) && Run(db, run + [a]) == Apply(Run(db, run), a)
    decreases |run|
  {
    if run == [] {
      assert run + [a] == [a];
      assert [a][1..] == [];
    } else {
      Append(Apply(db, run[0]), run[1..], a);
      assert (run + [a])[1..] == run[1..] + [a];
    }
  }

  lemma StartStatement(rows: map<Key, Row>, log: Log, key: Key, op: Operation, row: Row) returns (db: Database)
    requires (op.INSERT? <==> key !in rows)
    requires op.UPDATE? ==> Owners(rows[key].owners) <= Owners(row.owners)
    requires op.INSERT? ==> forall i :: 0 <= i < |log.events| && log.events[i].key == key ==> log.events[i].business in Owners(row.owners)
    ensures var s := Settled(rows, log);
            && Enabled(s, Begin(0)) && Enabled(Apply(s, Begin(0)), Write(0, key, op, row))
            && db == Apply(Apply(s, Begin(0)), Write(0, key, op, row)) && Midway(db, log, log) && db.rows == rows
    ensures db.open[0].rows == map[key := if op.DELETE? then None else Some(row)]
    ensures db.open[0].statement == Statement(key, op, EmitOwners((if op.DELETE? then rows[key] else row).owners))
  {
    var s := Settled(rows, log);
    var s1 := Apply(s, Begin(0));
    assert Visible(s1, s1.open[0], key) == RowAt(rows, key);
    assert KeepsOwners(s1, s1.open[0], Write(0, key, op, row));
    db := Apply(s1, Write(0, key, op, row));
    assert db.clock + db.open[0].clocks == log.clock;
  }

  lemma CommitSettles(db: Database, log: Log, log': Log, key: Key, version: Option<Row>)
    requires Midway(db, log, log') && db.open[0].rows == map[key := version] && db.open[0].statement.todo == []
    ensures Enabled(db, Commit(0))
    ensures Apply(db, Commit(0)) ==
            Settled(if version.None? then db.rows - {key} else db.rows[key := version.value], log')
  {
    var final := Apply(db, Commit(0));
    assert final.open == map[];
    assert final.rows == (if version.None? then db.rows - {key} else db.rows[key := version.value]);
  }

  /** A write of the store, of a row that is not missing just one of two owners, is a legal run
      of the protocol from settled state to settled state. */
  lemma StoreWriteIsATransaction(rows: map<Key, Row>, log: Log, key: Key, op: Operation, row: Row) returns (run: seq<Action>)
    requires (op.INSERT? <==> key !in rows)
    requires op.UPDATE? ==> Owners(rows[key].owners) <= Owners(row.owners)
    requires op.INSERT? ==> forall i :: 0 <= i < |log.events| && log.events[i].key == key ==> log.events[i].business in Owners(row.owners)
    requires var c := (if op.DELETE? then rows[key] else row).owners; EmitOwnersSqlite(c) == EmitOwners(c)
    ensures Legal(Settled(rows, log), run)
    ensures var owners := EmitOwnersSqlite((if op.DELETE? then rows[key] else row).owners);
            Run(Settled(rows, log), run) ==
            Settled(if op.DELETE? then rows - {key} else rows[key := row], EmittedToAll(log, owners, key, op))
  {
    var s := Settled(rows, log);
    var owners := EmitOwners((if op.DELETE? then rows[key] else row).owners);
    var db := StartStatement(rows, log, key, op, row);
    assert owners[0..] == owners && owners[..0] == [];
    AllEmits(db, log, log, owners, 0);
    var emits := Emits(|owners|);
    var end := Run(db, emits);
    CommitSettles(end, log, EmittedToAll(log, owners, key, op), key, if op.DELETE? then None else Some(row));
    Append(db, emits, Commit(0));
    Prepend(Apply(s, Begin(0)), Write(0, key, op, row), emits + [Commit(0)]);
    Prepend(s, Begin(0), [Write(0, key, op, row)] + (emits + [Commit(0)]));
    run := [Begin(0)] + ([Write(0, key, op, row)] + (emits + [Commit(0)]));
  }
}
