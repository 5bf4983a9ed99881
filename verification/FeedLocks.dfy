/** Deadlock freedom of the feed's clock locks. */
module FeedLocks {
  import opened Wrappers
  import opened FeedOwners
  import opened FeedModel
  import opened LockOrder

  /** The clock rows each open transaction holds, and the one it is about to ask for. */
  function ClockLocks(db: Database): Waiting<TxId> {
    Waiting(map t | t in db.open :: db.open[t].clocks.Keys,
            map t | t in db.open && Asking(db.open[t]) :: db.open[t].statement.todo[0])
  }

  predicate Asking(tx: Tx) {
    tx.statement.todo != [] && tx.statement.todo[0] !in tx.clocks
  }

  /** A transaction that writes one record, whose owner columns are on the record itself. */
  ghost predicate SingleOwnRecord(db: Database, a: Action)
    requires Enabled(db, a)
  {
    a.Write? ==>
      && db.open[a.t].clocks == map[]
      && !(if a.operation.DELETE? then Visible(db, db.open[a.t], a.key).value else a.row).owners.ViaOrder?
  }

  ghost predicate LegalSingle(db: Database, run: seq<Action>)
    decreases |run|
  {
    run == [] || (Enabled(db, run[0]) && SingleOwnRecord(db, run[0]) && LegalSingle(Apply(db, run[0]), run[1..]))
  }

  ghost predicate LocksInOrder(tx: Tx) {
    && (forall h, i :: h in tx.clocks && 0 <= i < |tx.statement.todo| ==> h <= tx.statement.todo[i])
    && (forall i, j :: 0 <= i < j < |tx.statement.todo| ==> tx.statement.todo[i] <= tx.statement.todo[j])
  }

  ghost predicate AllInOrder(db: Database) {
    forall t :: t in db.open ==> LocksInOrder(db.open[t])
  }

  lemma StepKeepsOrder(db: Database, a: Action)
    requires Enabled(db, a) && SingleOwnRecord(db, a) && AllInOrder(db)
    ensures AllInOrder(Apply(db, a))
  {
    if a.Write? {
      var tx' := Apply(db, a).open[a.t];
      var owners := (if a.operation.DELETE? then Visible(db, db.open[a.t], a.key).value else a.row).owners;
      forall i, j | 0 <= i < j < |tx'.statement.todo|
        ensures tx'.statement.todo[i] <= tx'.statement.todo[j]
      {
        OwnColumnsLockAscending(owners, i, j);
      }
    }
  }

  /** Transactions that each write one record carrying its owner columns never wait in a circle,
      whatever their number, their order and their outcome. */
  lemma {:induction false} SharedRecordWritersNeverDeadlock(db: Database, run: seq<Action>, cycle: seq<TxId>)
    requires AllInOrder(db) && LegalSingle(db, run)
    ensures Legal(db, run) && !WaitCycle(ClockLocks(Run(db, run)), cycle)
    decreases |run|
  {
    if run == [] {
      assert Ascending(ClockLocks(db)) by {
        assert forall t :: t in db.open ==> LocksInOrder(db.open[t]);
      }
      AscendingLocksNeverDeadlock(ClockLocks(db), cycle);
    } else {
      StepKeepsOrder(db, run[0]);
      SharedRecordWritersNeverDeadlock(Apply(db, run[0]), run[1..], cycle);
    }
  }
}
