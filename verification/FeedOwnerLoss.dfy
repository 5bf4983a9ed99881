/** A replica that a change of owner leaves with a stale row. */
module FeedOwnerLoss {
  import opened Wrappers
  import opened FeedOwners
  import opened FeedModel
  import opened FeedReplica
  import opened FeedConvergence
  import opened FeedStore
  import opened FeedRefinement

  function SourceSteps(run: seq<Action>): seq<Step> {
    if run == [] then [] else [Source(run[0])] + SourceSteps(run[1..])
  }

  /** Whatever the source does alone, the whole system can do. */
  lemma {:induction false} SourceRuns(db: Database, r: Replica, run: seq<Action>)
    requires Legal(db, run)
    ensures LegalRun(System(db, r), SourceSteps(run))
    ensures RunSystem(System(db, r), SourceSteps(run)) == System(Run(db, run), r)
    decreases |run|
  {
    if run != [] {
      SourceRuns(Apply(db, run[0]), r, run[1..]);
      assert SourceSteps(run)[1..] == SourceSteps(run[1..]);
    }
  }

  lemma {:induction false} RunsOn(s: System, run: seq<Step>, more: seq<Step>)
    requires LegalRun(s, run) && LegalRun(RunSystem(s, run), more)
    ensures LegalRun(s, run + more) && RunSystem(s, run + more) == RunSystem(RunSystem(s, run), more)
    decreases |run|
  {
    if run == [] {
      assert run + more == more;
    } else {
      RunsOn(DoStep(s, run[0]), run[1..], more);
      assert (run + more)[1..] == run[1..] + more;
    }
  }

  lemma OneStepMore(s: System, step: Step, more: seq<Step>)
    requires CanStep(s, step) && LegalRun(DoStep(s, step), more)
    ensures LegalRun(s, [step] + more) && RunSystem(s, [step] + more) == RunSystem(DoStep(s, step), more)
  {
    assert ([step] + more)[1..] == more;
  }

  /** A pull of a single event. */
  function OnePull(e: Event): seq<Step> {
    [Query(1, [e], false)] + ([ReadRow] + ([Deliver] + []))
  }

  lemma OnePullDelivers(db: Database, r: Replica, e: Event)
    requires r.pull.Idle? && r.cursor < e.revision && db.events == {e} && e.business == r.business && e.key in db.rows
    ensures LegalRun(System(db, r), OnePull(e))
    ensures RunSystem(System(db, r), OnePull(e)) ==
            System(db, r.(cursor := e.revision, rows := r.rows[e.key := db.rows[e.key]]))
  {
    assert After(db.events, r.business, r.cursor, e);
    var s0 := System(db, r);
    assert CanStep(s0, Query(1, [e], false));
    var s1 := DoStep(s0, Query(1, [e], false));
    var s2 := DoStep(s1, ReadRow);
    var payload := Payload(e.key, Some(db.rows[e.key]));
    assert s2.replica.pull.payloads == [payload];
    assert [payload][..0] == [];
    assert ApplyAll(r.rows, [payload], r.retained) == r.rows[e.key := db.rows[e.key]];
    var s3 := DoStep(s2, Deliver);
    assert LegalRun(s3, []);
    OneStepMore(s2, Deliver, []);
    OneStepMore(s1, ReadRow, [Deliver] + []);
    OneStepMore(s0, Query(1, [e], false), [ReadRow] + ([Deliver] + []));
  }

  /** The source with one row of `b`, and nothing else ever written. */
  function OneRow(b: Business, key: Key, row: Row): Database {
    Database(map[key := row], map[b := 1], {Event(b, 1, key, INSERT)}, map[])
  }

  lemma OneRowIsReachable(b: Business, key: Key, row: Row) returns (run: seq<Action>)
    requires row.owners == Sole(Some(b))
    ensures Legal(EMPTY_DATABASE, run) && Run(EMPTY_DATABASE, run) == OneRow(b, key, row)
  {
    var none := Log(map[], []);
    assert EMPTY_DATABASE == Settled(map[], none);
    run := StoreWriteIsATransaction(map[], none, key, INSERT, row);
    assert [b][..0] == [];
    assert EmittedToAll(none, [b], key, INSERT) == Log(map[b := 1], [] + [Event(b, 1, key, INSERT)]);
    assert EventSet([Event(b, 1, key, INSERT)]) == {Event(b, 1, key, INSERT)} by {
      assert [Event(b, 1, key, INSERT)][0] == Event(b, 1, key, INSERT);
    }
  }

  lemma CaughtUp(b: Business, retained: set<string>, key: Key, row: Row) returns (run: seq<Step>, s: System)
    requires row.owners == Sole(Some(b))
    ensures LegalRun(System(EMPTY_DATABASE, FreshReplica(b, retained)), run)
    ensures RunSystem(System(EMPTY_DATABASE, FreshReplica(b, retained)), run) == s
    ensures Inv(s.db) && s == System(OneRow(b, key, row), Replica(b, retained, 1, map[key := row], Idle))
  {
    var fresh_, db := FreshReplica(b, retained), OneRow(b, key, row);
    var source := OneRowIsReachable(b, key, row);
    RunKeepsInv(EMPTY_DATABASE, source);
    SourceRuns(EMPTY_DATABASE, fresh_, source);
    OnePullDelivers(db, fresh_, Event(b, 1, key, INSERT));
    RunsOn(System(EMPTY_DATABASE, fresh_), SourceSteps(source), OnePull(Event(b, 1, key, INSERT)));
    run := SourceSteps(source) + OnePull(Event(b, 1, key, INSERT));
    s := System(db, Replica(b, retained, 1, map[key := row], Idle));
  }

  /** A replica that has pulled everything, until the source gives one of its rows to another business:
      the replica keeps the row, and no event above its cursor tells it otherwise. */
  lemma GivenAwayRowsStay(b: Business, other: Business, retained: set<string>, key: Key, body: string)
    returns (run: seq<Step>, s: System)
    requires b != other && key.entity !in retained
    ensures LegalRun(System(EMPTY_DATABASE, FreshReplica(b, retained)), run)
    ensures RunSystem(System(EMPTY_DATABASE, FreshReplica(b, retained)), run) == s && AllRight(s)
    ensures var db' := UpdateAlone(s.db, key, Row(Sole(Some(other)), body));
            && View(db'.rows, b, key).None? && key in s.replica.rows && s.replica.business == b
            && !Newer(db'.events, b, key, s.replica.cursor)
  {
    var row := Row(Sole(Some(b)), body);
    run, s := CaughtUp(b, retained, key, row);
    UpdateMustKeepTheOwner(s.db, key, Row(Sole(Some(other)), body), s.replica);
  }
}
