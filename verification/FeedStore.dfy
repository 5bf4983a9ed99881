/** The change feed as one database keeps it: the SQLite form, where a single writer at a time
    runs each trigger to its end. */
module FeedStore {
  import opened Wrappers
  import opened FeedOwners
  import opened FeedModel
  import opened FeedReplica
  import opened FeedPaging
  import opened FeedCursor
  import opened Decimal
  import opened FeedConvergence

  /** The clock and event tables; events in the order they were inserted. */
  datatype Log = Log(clock: map<Business, nat>, events: seq<Event>)

  datatype PullError = InvalidRevision | UnknownEntity(entity: string)
  datatype Answer = Answer(cursor: string, changes: map<string, seq<Payload>>, hasMore: bool)

  function EventSet(events: seq<Event>): set<Event> {
    set e | e in events
  }

  /** The store as a database of the protocol, with nobody writing. */
  function Settled(rows: map<Key, Row>, log: Log): Database {
    Database(rows, log.clock, EventSet(log.events), map[])
  }

  /** Per business the log holds the revisions 1..clock, inserted in that order. */
  ghost predicate LogOk(log: Log) {
    && (forall b :: Dense(EventSet(log.events), b, 0, ClockOf(log, b)))
    && (forall i, j :: 0 <= i < j < |log.events| && log.events[i].business == log.events[j].business ==>
          log.events[i].revision < log.events[j].revision)
  }

  function ClockOf(log: Log, b: Business): nat {
    if b in log.clock then log.clock[b] else 0
  }

  // ---- emitting ----

  function Emitted(log: Log, b: Business, key: Key, op: Operation): Log {
    var revision := ClockOf(log, b) + 1;
    Log(log.clock[b := revision], log.events + [Event(b, revision, key, op)])
  }

  function EmittedToAll(log: Log, owners: seq<Business>, key: Key, op: Operation): Log {
    if owners == [] then log
    else Emitted(EmittedToAll(log, owners[..|owners| - 1], key, op), owners[|owners| - 1], key, op)
  }

  lemma EmittingKeepsDense(log: Log, b: Business, key: Key, op: Operation, c: Business)
    requires Dense(EventSet(log.events), c, 0, ClockOf(log, c))
    ensures var log' := Emitted(log, b, key, op); Dense(EventSet(log'.events), c, 0, ClockOf(log', c))
  {
    var log' := Emitted(log, b, key, op);
    var e := Event(b, ClockOf(log, b) + 1, key, op);
    assert log'.events[|log.events|] == e;
    assert EventSet(log'.events) == EventSet(log.events) + {e};
    forall r | 0 < r <= ClockOf(log', c)
      ensures HasRevision(EventSet(log'.events), c, r)
    {
      if !(c == b && r == e.revision) {
        assert HasRevision(EventSet(log.events), c, r);
      }
    }
  }

  lemma EmittingKeepsLogOk(log: Log, b: Business, key: Key, op: Operation)
    requires LogOk(log)
    ensures LogOk(Emitted(log, b, key, op))
  {
    forall c { EmittingKeepsDense(log, b, key, op, c); }
    assert Dense(EventSet(log.events), b, 0, ClockOf(log, b));
    assert forall i :: 0 <= i < |log.events| ==> log.events[i] in EventSet(log.events);
  }

  // ---- seeding ----

  predicate Told(log: Log, b: Business, key: Key) {
    exists i :: 0 <= i < |log.events| && log.events[i].business == b && log.events[i].key == key
  }

  function SeededOwners(log: Log, owners: seq<Business>, key: Key): Log {
    if owners == [] then log
    else
      var before := SeededOwners(log, owners[..|owners| - 1], key);
      var b := owners[|owners| - 1];
      if Told(before, b, key) then before else Emitted(before, b, key, INSERT)
  }

  function Seeded(log: Log, rows: map<Key, Row>, order: seq<Key>): Log
    requires forall k :: k in order ==> k in rows
  {
    if order == [] then log
    else
      var k := order[|order| - 1];
      SeededOwners(Seeded(log, rows, order[..|order| - 1]), SeedOwners(rows[k].owners), k)
  }

  /** One log continues another. */
  predicate Extends(log: Log, log': Log) {
    log.events <= log'.events
  }

  lemma ToldStaysTold(log: Log, log': Log, b: Business, key: Key)
    requires Extends(log, log') && Told(log, b, key)
    ensures Told(log', b, key)
  {
    var i :| 0 <= i < |log.events| && log.events[i].business == b && log.events[i].key == key;
    assert log'.events[i] == log.events[i];
  }

  lemma {:induction false} SeedingOwners(log: Log, owners: seq<Business>, key: Key)
    requires LogOk(log)
    ensures var log' := SeededOwners(log, owners, key);
            && LogOk(log') && Extends(log, log')
            && (forall b :: Told(log', b, key) <==> Told(log, b, key) || b in owners)
            && (forall b, k :: k != key ==> (Told(log', b, k) <==> Told(log, b, k)))
            && ((forall b :: b in owners ==> Told(log, b, key)) ==> log' == log)
  {
    if owners != [] {
      var front, b := owners[..|owners| - 1], owners[|owners| - 1];
      SeedingOwners(log, front, key);
      var before := SeededOwners(log, front, key);
      assert forall c :: c in owners <==> c in front || c == b;
      if !Told(before, b, key) {
        EmittingKeepsLogOk(before, b, key, INSERT);
        EmittedTells(before, b, key, INSERT);
      }
    }
  }

  lemma EmittedTells(log: Log, b: Business, key: Key, op: Operation)
    ensures var log' := Emitted(log, b, key, op);
            && Extends(log, log')
            && forall c, k :: Told(log', c, k) <==> Told(log, c, k) || (c == b && k == key)
  {
    var log' := Emitted(log, b, key, op);
    var n := |log.events|;
    assert log'.events[n].business == b && log'.events[n].key == key;
    forall c, k
      ensures Told(log', c, k) <==> Told(log, c, k) || (c == b && k == key)
    {
      if Told(log, c, k) {
        ToldStaysTold(log, log', c, k);
      }
      if Told(log', c, k) && !(c == b && k == key) {
        var i :| 0 <= i < |log'.events| && log'.events[i].business == c && log'.events[i].key == k;
        assert log.events[i] == log'.events[i];
      }
    }
  }

  /** Seeding tells every owner of every row, tells nobody else, and leaves a good log. */
  lemma {:induction false} SeedingTellsEveryOwner(log: Log, rows: map<Key, Row>, order: seq<Key>)
    requires LogOk(log) && forall k :: k in order ==> k in rows
    ensures var log' := Seeded(log, rows, order);
            && LogOk(log') && Extends(log, log')
            && forall b, k :: Told(log', b, k) <==> Told(log, b, k) || (k in order && b in Owners(rows[k].owners))
  {
    if order != [] {
      var front, k := order[..|order| - 1], order[|order| - 1];
      SeedingTellsEveryOwner(log, rows, front);
      SeedingOwners(Seeded(log, rows, front), SeedOwners(rows[k].owners), k);
      SeedingReachesTheTriggersOwners(rows[k].owners);
      assert forall x :: x in order <==> x in front || x == k;
    }
  }

  lemma {:induction false} SeedingTheToldAddsNothing(log: Log, rows: map<Key, Row>, order: seq<Key>)
    requires LogOk(log) && forall k :: k in order ==> k in rows
    requires forall b, k :: k in order && b in Owners(rows[k].owners) ==> Told(log, b, k)
    ensures Seeded(log, rows, order) == log
  {
    if order != [] {
      var front, k := order[..|order| - 1], order[|order| - 1];
      assert k in order && forall x :: x in front ==> x in order;
      SeedingTheToldAddsNothing(log, rows, front);
      SeedingReachesTheTriggersOwners(rows[k].owners);
      SeedingOwners(log, SeedOwners(rows[k].owners), k);
    }
  }

  /** A second installation appends no event, whatever the order in which it visits the rows. */
  lemma SecondSeedingAddsNothing(log: Log, rows: map<Key, Row>, order: seq<Key>, again: seq<Key>)
    requires LogOk(log) && (forall k :: k in order <==> k in rows) && (forall k :: k in again ==> k in rows)
    ensures Seeded(Seeded(log, rows, order), rows, again) == Seeded(log, rows, order)
  {
    SeedingTellsEveryOwner(log, rows, order);
    SeedingTheToldAddsNothing(Seeded(log, rows, order), rows, again);
  }

  /** After installation a replica that starts at cursor zero satisfies the convergence invariant,
      provided the events that were there before named owners of the rows. */
  lemma SeededStoreStartsReplicas(log: Log, rows: map<Key, Row>, order: seq<Key>, b: Business, retained: set<string>)
    requires LogOk(log) && forall k :: k in order <==> k in rows
    requires forall i :: 0 <= i < |log.events| && log.events[i].key in rows ==>
               log.events[i].business in Owners(rows[log.events[i].key].owners)
    ensures SystemInv(System(Settled(rows, Seeded(log, rows, order)), FreshReplica(b, retained)))
  {
    var log' := Seeded(log, rows, order);
    var db := Settled(rows, log');
    SeedingTellsEveryOwner(log, rows, order);
    forall c ensures Dense(db.events, c, 0, Clock(db, c)) {
      assert Clock(db, c) == ClockOf(log', c);
    }
    forall e | e in db.events && RowAt(db.rows, e.key).Some?
      ensures Owned(RowAt(db.rows, e.key), e.business)
    {
      var i :| 0 <= i < |log'.events| && log'.events[i] == e;
      assert Told(log', e.business, e.key);
      if Told(log, e.business, e.key) {
        var j :| 0 <= j < |log.events| && log.events[j].business == e.business && log.events[j].key == e.key;
      }
    }
    forall k | View(db.rows, b, k).Some?
      ensures Announced(db.events, b, k)
    {
      assert Told(log', b, k);
      var i :| 0 <= i < |log'.events| && log'.events[i].business == b && log'.events[i].key == k;
      assert log'.events[i] in db.events;
    }
    FreshReplicaSatisfiesInv(db, b, retained);
  }

  // ---- the paging query ----

  /** The events of `b` after a revision, in insertion order. */
  function Matching(events: seq<Event>, b: Business, revision: nat): seq<Event> {
    if events == [] then []
    else
      var last := events[|events| - 1];
      Matching(events[..|events| - 1], b, revision) +
      (if last.business == b && last.revision > revision then [last] else [])
  }

  lemma {:induction false} MatchingMembers(events: seq<Event>, b: Business, revision: nat, e: Event)
    ensures e in Matching(events, b, revision) <==> e in events && e.business == b && e.revision > revision
  {
    if events != [] {
      MatchingMembers(events[..|events| - 1], b, revision, e);
      assert events == events[..|events| - 1] + [events[|events| - 1]];
    }
  }

  /** Revisions of a business grow along the log, so a later match is a newer one. */
  lemma LastMatchIsNewest(log: Log, b: Business, revision: nat, n: nat, e: Event)
    requires LogOk(log) && 0 < n <= |log.events| && log.events[n - 1].business == b
    requires e in Matching(log.events[..n - 1], b, revision)
    ensures e.revision < log.events[n - 1].revision
  {
    MatchingMembers(log.events[..n - 1], b, revision, e);
    var i :| 0 <= i < n - 1 && log.events[..n - 1][i] == e;
    assert log.events[i] == e;
  }

  lemma {:induction false} MatchingIsSorted(log: Log, b: Business, revision: nat, n: nat)
    requires LogOk(log) && n <= |log.events|
    ensures RevisionsAscend(Matching(log.events[..n], b, revision))
  {
    if n > 0 {
      MatchingIsSorted(log, b, revision, n - 1);
      var last := log.events[n - 1];
      assert log.events[..n][..n - 1] == log.events[..n - 1];
      var front := Matching(log.events[..n - 1], b, revision);
      if last.business == b {
        forall i | 0 <= i < |front|
          ensures front[i].revision < last.revision
        {
          LastMatchIsNewest(log, b, revision, n, front[i]);
        }
      }
    }
  }

  ghost predicate RevisionsAscend(m: seq<Event>) {
    forall i, j :: 0 <= i < j < |m| ==> m[i].revision < m[j].revision
  }

  /** What does not make it under the limit comes after all that does. */
  lemma LeftOutIsLater(m: seq<Event>, n: nat, e: Event)
    requires RevisionsAscend(m) && n <= |m| && e in m
    ensures e in m[..n] || (n < |m| && forall i :: 0 <= i < n ==> m[i].revision < e.revision)
  {
    var j :| 0 <= j < |m| && m[j] == e;
    if j < n {
      assert m[..n][j] == e;
    }
  }

  lemma NextIsLeftOut(m: seq<Event>, n: nat)
    requires RevisionsAscend(m) && n < |m|
    ensures m[n] in m && m[n] !in m[..n]
  {
    if i :| 0 <= i < n && m[..n][i] == m[n] {
      assert m[i].revision < m[n].revision;
    }
  }

  /** Cutting a sorted list at the limit. */
  lemma CutIsPage(events: set<Event>, b: Business, revision: nat, limit: nat, m: seq<Event>)
    requires limit >= 1 && RevisionsAscend(m)
    requires forall e :: e in m <==> After(events, b, revision, e)
    ensures IsPage(events, b, revision, limit, m[..Min(limit, |m|)], |m| > limit)
  {
    var n := Min(limit, |m|);
    var page := m[..n];
    forall e | After(events, b, revision, e) && e !in page
      ensures n == limit < |m| && forall i :: 0 <= i < n ==> page[i].revision < e.revision
    {
      LeftOutIsLater(m, n, e);
    }
    if |m| > limit {
      NextIsLeftOut(m, n);
    }
  }

  /** Cutting the sorted matches at the limit answers the paging query. */
  lemma FirstMatchesArePage(log: Log, b: Business, revision: nat, limit: nat)
    requires LogOk(log) && limit >= 1
    ensures IsPage(EventSet(log.events), b, revision, limit, PageOf(log, b, revision, limit), HasMore(log, b, revision, limit))
  {
    assert log.events[..|log.events|] == log.events;
    MatchingIsSorted(log, b, revision, |log.events|);
    forall e
      ensures e in Matching(log.events, b, revision) <==> After(EventSet(log.events), b, revision, e)
    {
      MatchingMembers(log.events, b, revision, e);
    }
    CutIsPage(EventSet(log.events), b, revision, limit, Matching(log.events, b, revision));
  }

  function PageOf(log: Log, b: Business, revision: nat, limit: nat): seq<Event> {
    var m := Matching(log.events, b, revision); m[..Min(limit, |m|)]
  }

  predicate HasMore(log: Log, b: Business, revision: nat, limit: nat) {
    |Matching(log.events, b, revision)| > limit
  }

  predicate Known(page: seq<Event>, entities: set<string>) {
    forall i :: 0 <= i < |page| ==> page[i].key.entity in entities
  }

  function PayloadsOf(rows: map<Key, Row>, page: seq<Event>): seq<Payload> {
    seq(|page|, i requires 0 <= i < |page| => Payload(page[i].key, RowAt(rows, page[i].key)))
  }

  /** `changes` files the payloads under their entities, keeping their order. */
  ghost predicate Grouped(changes: map<string, seq<Payload>>, ps: seq<Payload>) {
    && (forall e :: e in changes <==> Of(ps, e) != [])
    && (forall e :: e in changes ==> changes[e] == Of(ps, e))
  }

  // ---- what a pull answers ----

  /** `at` lists the places of the page that are about the entity, and the payloads are of these: each row
      as it is, or its absence. */
  ghost predicate Files(rows: map<Key, Row>, page: seq<Event>, entity: string, at: seq<nat>, ps: seq<Payload>) {
    && |at| == |ps| && (forall j :: 0 <= j < |at| ==> at[j] < |page|)
    && (forall i, j :: 0 <= i < j < |at| ==> at[i] < at[j])
    && (forall i: nat :: i < |page| ==> (i in at <==> page[i].key.entity == entity))
    && forall j :: 0 <= j < |at| ==> ps[j] == Payload(page[at[j]].key, RowAt(rows, page[at[j]].key))
  }

  /** Under each entity of the page, and under no other, its rows in the order of the page. */
  ghost predicate ShipsRows(rows: map<Key, Row>, page: seq<Event>, changes: map<string, seq<Payload>>) {
    && (forall e :: e in changes <==> exists i :: 0 <= i < |page| && page[i].key.entity == e)
    && forall e :: e in changes ==> exists at :: Files(rows, page, e, at, changes[e])
  }

  /** The entity is the first of the page that this database does not know. */
  predicate FirstUnknown(page: seq<Event>, entities: set<string>, entity: string) {
    exists i :: 0 <= i < |page| && page[i].key.entity == entity && entity !in entities
                && forall j :: 0 <= j < i ==> page[j].key.entity in entities
  }

  /** The answer to a pull from revision `n`. */
  ghost predicate Answers(rows: map<Key, Row>, log: Log, b: Business, n: nat, limit: nat, entities: set<string>,
                          r: Result<Answer, PullError>) {
    exists page, more ::
      && IsPage(EventSet(log.events), b, n, limit, page, more)
      && if Known(page, entities) then
           r.Ok? && r.value.cursor == CursorText(b, Last(page, n)) && r.value.hasMore == more && ShipsRows(rows, page, r.value.changes)
         else r.Err? && r.error.UnknownEntity? && FirstUnknown(page, entities, r.error.entity)
  }

  function Places(page: seq<Event>, entity: string): seq<nat> {
    if page == [] then []
    else
      var last := |page| - 1;
      Places(page[..last], entity) + if page[last].key.entity == entity then [last] else []
  }

  lemma {:induction false} PlacesFile(rows: map<Key, Row>, page: seq<Event>, entity: string)
    ensures Files(rows, page, entity, Places(page, entity), Of(PayloadsOf(rows, page), entity))
  {
    if page != [] {
      var n := |page| - 1;
      var front := page[..n];
      PlacesFile(rows, front, entity);
      assert PayloadsOf(rows, page)[..n] == PayloadsOf(rows, front);
      var before, at := Places(front, entity), Places(page, entity);
      forall i: nat | i < |page|
        ensures i in at <==> page[i].key.entity == entity
      {
        assert i in at <==> i in before || (i == n && page[n].key.entity == entity);
        if i < n {
          assert front[i] == page[i];
        }
      }
    }
  }

  lemma GroupedShipsRows(rows: map<Key, Row>, page: seq<Event>, changes: map<string, seq<Payload>>)
    requires Grouped(changes, PayloadsOf(rows, page))
    ensures ShipsRows(rows, page, changes)
  {
    forall e
      ensures e in changes <==> exists i :: 0 <= i < |page| && page[i].key.entity == e
      ensures e in changes ==> Files(rows, page, e, Places(page, e), changes[e])
    {
      PlacesFile(rows, page, e);
      var at := Places(page, e);
      if e in changes {
        assert at[0] in at && at[0] < |page|;
      }
      if i: nat :| i < |page| && page[i].key.entity == e {
        assert i in at;
      }
    }
  }

  /** Pulls one after the other, each with the cursor of the one before, until one reports no more; nothing
      is written meanwhile. */
  ghost predicate Pulled(rows: map<Key, Row>, log: Log, b: Business, cursor: string, limit: nat, answers: seq<Answer>,
                         pages: seq<seq<Event>>)
    decreases |answers|
  {
    && |answers| == |pages| > 0 && (answers[0].hasMore <==> |answers| > 1)
    && (exists n ::
          && StartsAt(b, cursor, n) && IsPage(EventSet(log.events), b, n, limit, pages[0], answers[0].hasMore)
          && answers[0].cursor == CursorText(b, Last(pages[0], n)))
    && ShipsRows(rows, pages[0], answers[0].changes)
    && (|answers| > 1 ==> Pulled(rows, log, b, answers[0].cursor, limit, answers[1..], pages[1..]))
  }

  lemma {:induction false} PullsFollowTheCursor(rows: map<Key, Row>, log: Log, b: Business, cursor: string, limit: nat,
                                                answers: seq<Answer>, pages: seq<seq<Event>>, n: nat)
    requires Pulled(rows, log, b, cursor, limit, answers, pages)
    requires forall m :: StartsAt(b, cursor, m) ==> m == n
    ensures PullsUntilDone(EventSet(log.events), b, n, limit, pages)
    decreases |answers|
  {
    if |answers| > 1 {
      var next := Last(pages[0], n);
      forall m | StartsAt(b, answers[0].cursor, m)
        ensures m == next
      {
        HandedOutStarts(b, next, m);
      }
      PullsFollowTheCursor(rows, log, b, answers[0].cursor, limit, answers[1..], pages[1..], next);
    }
  }

  lemma ForeignStartsAtZero(b: Business, cursor: string)
    requires !("feed:v2:" + Digits(b) + ":" <= cursor)
    ensures forall m :: StartsAt(b, cursor, m) <==> m == 0
  {
  }

  /** From no cursor, or one that is not of the business, the pages together tell the revisions of the
      business from the first to its clock, each once and in order. */
  lemma FirstPullsTellEverything(rows: map<Key, Row>, log: Log, b: Business, cursor: string, limit: nat,
                                 answers: seq<Answer>, pages: seq<seq<Event>>)
    requires LogOk(log) && limit >= 1 && Pulled(rows, log, b, cursor, limit, answers, pages)
    requires cursor == "" || !("feed:v2:" + Digits(b) + ":" <= cursor)
    ensures |Concat(pages)| == ClockOf(log, b)
    ensures forall i :: 0 <= i < |Concat(pages)| ==>
              Concat(pages)[i] in log.events && Concat(pages)[i].business == b && Concat(pages)[i].revision == i + 1
  {
    ForeignStartsAtZero(b, cursor);
    PullsFollowTheCursor(rows, log, b, cursor, limit, answers, pages, 0);
    PagesAreTheSuffix(EventSet(log.events), b, ClockOf(log, b), 0, limit, pages);
  }

  class Store {
    var rows: map<Key, Row>
    var log: Log

    ghost predicate Valid()
      reads this
    {
      LogOk(log)
    }

    constructor ()
      ensures Valid() && rows == map[] && log == Log(map[], [])
    {
      rows, log := map[], Log(map[], []);
      new;
      forall b ensures Dense(EventSet(log.events), b, 0, ClockOf(log, b)) { }
    }

    /** The emit function: nothing for a NULL owner, otherwise one bump and one event. */
    method Emit(b: Option<Business>, key: Key, op: Operation)
      requires Valid()
      modifies this`log
      ensures Valid()
      ensures log == if b.Some? then Emitted(old(log), b.value, key, op) else old(log)
    {
      if b.None? {
        return;
      }
      EmittingKeepsLogOk(log, b.value, key, op);
      var revision := (if b.value in log.clock then log.clock[b.value] else 0) + 1;
      log := Log(log.clock[b.value := revision], log.events + [Event(b.value, revision, key, op)]);
    }

    /** A row is inserted, updated or deleted; its trigger announces it to each owner in turn. */
    method Write(key: Key, op: Operation, row: Row)
      requires Valid() && (op.INSERT? <==> key !in rows)
      modifies this
      ensures Valid()
      ensures rows == if op.DELETE? then old(rows) - {key} else old(rows)[key := row]
      ensures log == EmittedToAll(old(log), EmitOwnersSqlite((if op.DELETE? then old(rows)[key] else row).owners), key, op)
    {
      EmitEach(EmitOwnersSqlite((if op.DELETE? then rows[key] else row).owners), key, op);
      rows := if op.DELETE? then rows - {key} else rows[key := row];
    }

    method EmitEach(owners: seq<Business>, key: Key, op: Operation)
      requires Valid()
      modifies this`log
      ensures Valid() && log == EmittedToAll(old(log), owners, key, op)
    {
      var i := 0;
      while i < |owners|
        invariant 0 <= i <= |owners| && Valid()
        invariant log == EmittedToAll(old(log), owners[..i], key, op)
      {
        Emit(Some(owners[i]), key, op);
        assert owners[..i + 1][..i] == owners[..i];
        i := i + 1;
      }
      assert owners[..i] == owners;
    }

    /** Installation: every existing row without an event for an owner gets one. */
    method Install(order: seq<Key>)
      requires Valid() && forall k :: k in order ==> k in rows
      modifies this`log
      ensures Valid()
      ensures log == Seeded(old(log), rows, order)
    {
      var i := 0;
      while i < |order|
        invariant 0 <= i <= |order| && Valid()
        invariant log == Seeded(old(log), rows, order[..i])
      {
        assert order[i] in order;
        SeedRow(SeedOwners(rows[order[i]].owners), order[i]);
        assert order[..i + 1][..i] == order[..i];
        i := i + 1;
      }
      assert order[..i] == order;
    }

    /** One event for each owner of a row that has none yet. */
    method SeedRow(owners: seq<Business>, key: Key)
      requires Valid()
      modifies this`log
      ensures Valid() && log == SeededOwners(old(log), owners, key)
    {
      var j := 0;
      while j < |owners|
        invariant 0 <= j <= |owners| && Valid()
        invariant log == SeededOwners(old(log), owners[..j], key)
      {
        if !Told(log, owners[j], key) {
          Emit(Some(owners[j]), key, INSERT);
        }
        assert owners[..j + 1][..j] == owners[..j];
        j := j + 1;
      }
      assert owners[..j] == owners;
    }

    /** At most `n` events of `b` after a revision, in revision order. */
    method QueryEvents(b: Business, revision: nat, n: nat) returns (found: seq<Event>)
      requires Valid()
      ensures var m := Matching(log.events, b, revision); found == m[..Min(n, |m|)]
    {
      found := [];
      var i := 0;
      while i < |log.events| && |found| < n
        invariant 0 <= i <= |log.events| && |found| <= n
        invariant found == Matching(log.events[..i], b, revision)
      {
        MatchingNext(log.events, b, revision, i);
        if log.events[i].business == b && log.events[i].revision > revision {
          found := found + [log.events[i]];
        }
        i := i + 1;
      }
      MatchingPrefix(log.events, b, revision, i);
      assert log.events[..|log.events|] == log.events;
    }

    /** Files the rows of a page as they are now, or as tombstones, under their entities. */
    method Ship(page: seq<Event>, entities: set<string>) returns (r: Result<map<string, seq<Payload>>, PullError>)
      ensures r.Ok? <==> Known(page, entities)
      ensures r.Ok? ==> Grouped(r.value, PayloadsOf(rows, page))
      ensures r.Err? ==> r.error.UnknownEntity? && FirstUnknown(page, entities, r.error.entity)
    {
      var changes: map<string, seq<Payload>> := map[];
      var i := 0;
      while i < |page|
        invariant 0 <= i <= |page|
        invariant forall j :: 0 <= j < i ==> page[j].key.entity in entities
        invariant Grouped(changes, PayloadsOf(rows, page[..i]))
      {
        var key := page[i].key;
        if key.entity !in entities {
          return Err(UnknownEntity(key.entity));
        }
        var payload := Payload(key, RowAt(rows, key));
        GroupingOneMore(changes, PayloadsOf(rows, page[..i]), payload);
        assert PayloadsOf(rows, page[..i + 1]) == PayloadsOf(rows, page[..i]) + [payload];
        changes := changes[key.entity := (if key.entity in changes then changes[key.entity] else []) + [payload]];
        i := i + 1;
      }
      assert page[..i] == page;
      r := Ok(changes);
    }

    /** One pull: the page after the cursor, each row as it is now or as a tombstone, filed by
        entity.  A cursor that is not a number and an entity this database does not know are refused. */
    method PullFeed(b: Business, cursor: string, limit: nat, entities: set<string>) returns (r: Result<Answer, PullError>)
      requires Valid() && limit >= 1
      ensures (forall n: nat :: !StartsAt(b, cursor, n)) ==> r == Err(InvalidRevision)
      ensures forall n: nat :: StartsAt(b, cursor, n) ==> Answers(rows, log, b, n, limit, entities, r)
      ensures r.Ok? ==> forall entity :: entity in r.value.changes ==> entity in entities
      ensures r.Err? && r.error.UnknownEntity? ==> r.error.entity !in entities
    {
      var start := StartRevision(b, cursor);
      forall n: nat ensures start == Ok(n) <==> StartsAt(b, cursor, n) {
        StartIff(b, cursor, n);
      }
      if start.Err? {
        return Err(InvalidRevision);
      }
      var found := QueryEvents(b, start.value, limit + 1);
      var more := |found| > limit;
      var page := if more then found[..limit] else found;
      FirstMatchesArePage(log, b, start.value, limit);
      assert page == PageOf(log, b, start.value, limit);
      var changes := Ship(page, entities);
      if changes.Err? {
        return Err(changes.error);
      }
      GroupedShipsRows(rows, page, changes.value);
      r := Ok(Answer(CursorText(b, Last(page, start.value)), changes.value, more));
    }
  }

  lemma MatchingNext(events: seq<Event>, b: Business, revision: nat, i: nat)
    requires i < |events|
    ensures Matching(events[..i + 1], b, revision) ==
            Matching(events[..i], b, revision) + if events[i].business == b && events[i].revision > revision then [events[i]] else []
  {
    assert events[..i + 1][..i] == events[..i];
  }

  lemma {:induction false} MatchingPrefix(events: seq<Event>, b: Business, revision: nat, i: nat)
    requires i <= |events|
    ensures Matching(events[..i], b, revision) <= Matching(events, b, revision)
  {
    if i < |events| {
      MatchingPrefix(events[..|events| - 1], b, revision, i);
      assert events[..|events| - 1][..i] == events[..i];
    } else {
      assert events[..i] == events;
    }
  }

  lemma GroupingOneMore(changes: map<string, seq<Payload>>, ps: seq<Payload>, p: Payload)
    requires Grouped(changes, ps)
    ensures Grouped(changes[p.key.entity := (if p.key.entity in changes then changes[p.key.entity] else []) + [p]], ps + [p])
  {
    assert (ps + [p])[..|ps|] == ps;
    assert forall e :: Of(ps + [p], e) == Of(ps, e) + (if p.key.entity == e then [p] else []);
  }
}
