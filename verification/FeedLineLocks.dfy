/** When two inserts can block each other on the feed's clocks: exactly when their triggers lock the
    same two clocks in opposite orders, as order lines with crossed seller and buyer do. */
module FeedLineLocks {
  import opened Wrappers
  import opened FeedOwners
  import opened FeedModel
  import opened FeedStore
  import opened FeedRefinement
  import opened FeedLocks
  import opened LockOrder
  import opened CrossedLocks

  const ORDERS := "b2b_orders"

  /** The transaction has inserted its row and emitted to the first `n` owners. */
  ghost predicate Emitting(tx: Tx, key: Key, p: seq<Business>, n: nat) {
    && n <= |p| && tx.statement.todo == p[n..] && tx.clocks.Keys == SetOf(p[..n])
    && key in tx.rows && tx.rows[key].Some?
  }

  ghost predicate Started(tx: Tx, key: Key, p: seq<Business>) {
    exists n: nat :: Emitting(tx, key, p, n)
  }

  /** The transaction, if open, has written nothing or is past its insert. */
  ghost predicate Inserting(db: Database, t: TxId, key: Key, row: Row) {
    t in db.open ==> Inserter(db.open[t], key, EmitOwners(row.owners))
  }

  ghost predicate Inserter(tx: Tx, key: Key, p: seq<Business>) {
    (tx.statement.todo == [] && tx.clocks == map[]) || Started(tx, key, p)
  }

  /** `t` writes nothing but its row. */
  predicate InsertsOnly(a: Action, t: TxId, key: Key, row: Row) {
    a.t == t && a.Write? ==> a == Write(t, key, INSERT, row)
  }

  lemma EmitGoesOn(db: Database, tx: Tx, key: Key, p: seq<Business>, n: nat)
    requires Emitting(tx, key, p, n) && n < |p|
    ensures Emitting(AfterEmit(db, tx), key, p, n + 1)
  {
    assert p[..n + 1] == p[..n] + [p[n]];
  }

  lemma StepKeepsInserting(db: Database, a: Action, t: TxId, key: Key, row: Row)
    requires Enabled(db, a) && InsertsOnly(a, t, key, row) && Inserting(db, t, key, row)
    ensures Inserting(Apply(db, a), t, key, row)
  {
    if a.t == t && a.Emit? {
      var n: nat :| Emitting(db.open[t], key, EmitOwners(row.owners), n);
      EmitGoesOn(db, db.open[t], key, EmitOwners(row.owners), n);
    } else if a.t == t && a.Write? {
      assert Visible(db, db.open[t], key).None?;
      assert Emitting(Apply(db, a).open[t], key, EmitOwners(row.owners), 0);
    }
  }

  lemma {:induction false} RunKeepsInserting(db: Database, run: seq<Action>, t: TxId, key: Key, row: Row)
    requires Legal(db, run) && Inserting(db, t, key, row)
    requires forall i :: 0 <= i < |run| ==> InsertsOnly(run[i], t, key, row)
    ensures Inserting(Run(db, run), t, key, row)
    decreases |run|
  {
    if run != [] {
      StepKeepsInserting(db, run[0], t, key, row);
      RunKeepsInserting(Apply(db, run[0]), run[1..], t, key, row);
    }
  }

  /** The same two clocks, the other way round. */
  predicate Opposed(p: seq<Business>, q: seq<Business>) {
    |p| == 2 && p[0] != p[1] && q == [p[1], p[0]]
  }

  lemma BlockedIsOpposed(p: seq<Business>, q: seq<Business>, n: nat, m: nat)
    requires |p| <= 2 && |q| <= 2 && Blocked(p, q, n, m)
    ensures Opposed(p, q)
  {
    assert n == 1 && m == 1;
    assert p[..1][0] != q[..1][0];
  }

  /** The transaction asks for a clock that the other holds. */
  predicate AsksFor(tx: Tx, other: Tx) {
    tx.statement.todo != [] && tx.statement.todo[0] in other.clocks
  }

  lemma WaitersAsk(db: Database, t: TxId, u: TxId)
    requires WaitsFor(ClockLocks(db), t, u)
    ensures t in db.open && u in db.open && t != u && AsksFor(db.open[t], db.open[u])
  {
  }

  lemma CycleAsks(db: Database, t: TxId, u: TxId)
    requires WaitCycle(ClockLocks(db), [t, u])
    ensures t in db.open && u in db.open && t != u
    ensures AsksFor(db.open[t], db.open[u]) && AsksFor(db.open[u], db.open[t])
  {
    var c := [t, u];
    assert WaitsFor(ClockLocks(db), c[0], c[1]) && WaitsFor(ClockLocks(db), c[1], c[0]);
    WaitersAsk(db, t, u);
    WaitersAsk(db, u, t);
  }

  lemma WaitersAreBlocked(x: Tx, k1: Key, p: seq<Business>, n: nat, y: Tx, k2: Key, q: seq<Business>, m: nat)
    requires Apart(x, y) && Emitting(x, k1, p, n) && Emitting(y, k2, q, m) && AsksFor(x, y) && AsksFor(y, x)
    ensures Blocked(p, q, n, m)
  {
    forall i, j | 0 <= i < n && 0 <= j < m
      ensures p[..n][i] != q[..m][j]
    {
      assert p[..n][i] in x.clocks && q[..m][j] in y.clocks;
    }
  }

  lemma AtMostTwoOwners(c: OwnerColumns)
    ensures |EmitOwners(c)| <= 2
  {
  }

  lemma AskersAreOpposed(x: Tx, k1: Key, p: seq<Business>, y: Tx, k2: Key, q: seq<Business>)
    requires Inserter(x, k1, p) && Inserter(y, k2, q)
    requires Apart(x, y) && AsksFor(x, y) && AsksFor(y, x)
    requires |p| <= 2 && |q| <= 2
    ensures Opposed(p, q)
  {
    var n: nat :| Emitting(x, k1, p, n);
    var m: nat :| Emitting(y, k2, q, m);
    WaitersAreBlocked(x, k1, p, n, y, k2, q, m);
    BlockedIsOpposed(p, q, n, m);
  }

  lemma BothInserting(db: Database, run: seq<Action>, e: Database, t: TxId, k1: Key, r1: Row, u: TxId, k2: Key, r2: Row, x: Tx, y: Tx)
    requires Inv(db) && t !in db.open && u !in db.open && Legal(db, run) && e == Run(db, run)
    requires forall i :: 0 <= i < |run| ==> InsertsOnly(run[i], t, k1, r1) && InsertsOnly(run[i], u, k2, r2)
    requires t in e.open && u in e.open && t != u && x == e.open[t] && y == e.open[u]
    ensures Inserter(x, k1, EmitOwners(r1.owners)) && Inserter(y, k2, EmitOwners(r2.owners)) && Apart(x, y)
  {
    RunKeepsInv(db, run);
    RunKeepsInserting(db, run, t, k1, r1);
    RunKeepsInserting(db, run, u, k2, r2);
  }

  /** Wherever two transactions that insert one row each wait for each other, whatever else was
      going on, their triggers lock two clocks in opposite orders. */
  lemma WaitingInsertsAreOpposed(db: Database, run: seq<Action>, t: TxId, k1: Key, r1: Row, u: TxId, k2: Key, r2: Row)
    requires Inv(db) && t !in db.open && u !in db.open && Legal(db, run)
    requires forall i :: 0 <= i < |run| ==> InsertsOnly(run[i], t, k1, r1) && InsertsOnly(run[i], u, k2, r2)
    requires WaitCycle(ClockLocks(Run(db, run)), [t, u])
    ensures Opposed(EmitOwners(r1.owners), EmitOwners(r2.owners))
  {
    var e := Run(db, run);
    CycleAsks(e, t, u);
    BothInserting(db, run, e, t, k1, r1, u, k2, r2, e.open[t], e.open[u]);
    AtMostTwoOwners(r1.owners);
    AtMostTwoOwners(r2.owners);
    AskersAreOpposed(e.open[t], k1, EmitOwners(r1.owners), e.open[u], k2, EmitOwners(r2.owners));
  }

  // ---- opposed triggers do block each other ----

  /** Starts a transaction that inserts a row and locks the first clock of its two owners. */
  function HalfInsert(t: TxId, key: Key, row: Row): seq<Action> {
    [Begin(t)] + ([Write(t, key, INSERT, row)] + ([Emit(t)] + []))
  }

  /** A row nobody has heard of. */
  ghost predicate Unheard(db: Database, key: Key) {
    key !in db.rows && forall e :: e in db.events ==> e.key != key
  }

  lemma HalfInsertLocksTheFirst(db: Database, t: TxId, key: Key, row: Row, s: Business, b: Business)
    requires EmitOwners(row.owners) == [s, b] && t !in db.open && Unheard(db, key)
    requires forall u :: u in db.open ==> key !in db.open[u].rows && s !in db.open[u].clocks
    ensures Legal(db, HalfInsert(t, key, row))
    ensures var db' := Run(db, HalfInsert(t, key, row));
            && db'.open.Keys == db.open.Keys + {t} && (forall u :: u in db.open ==> db'.open[u] == db.open[u])
            && db'.open[t].clocks.Keys == {s} && db'.open[t].statement.todo == [b] && db'.open[t].rows.Keys == {key}
            && db'.rows == db.rows && db'.events == db.events
  {
    var d1 := Apply(db, Begin(t));
    assert Visible(d1, d1.open[t], key).None?;
    var d2 := Apply(d1, Write(t, key, INSERT, row));
    assert d2.open[t].statement.todo == [s, b];
    Prepend(d2, Emit(t), []);
    Prepend(d1, Write(t, key, INSERT, row), [Emit(t)] + []);
    Prepend(db, Begin(t), [Write(t, key, INSERT, row)] + ([Emit(t)] + []));
    assert Run(db, HalfInsert(t, key, row)) == Apply(d2, Emit(t));
  }

  lemma {:induction false} RunsCompose(db: Database, first: seq<Action>, second: seq<Action>)
    requires Legal(db, first) && Legal(Run(db, first), second)
    ensures Legal(db, first + second) && Run(db, first + second) == Run(Run(db, first), second)
    decreases |first|
  {
    if first == [] {
      assert first + second == second;
    } else {
      RunsCompose(Apply(db, first[0]), first[1..], second);
      assert (first + second)[1..] == first[1..] + second;
    }
  }

  lemma MutualWait(db: Database, t: TxId, u: TxId, s: Business, b: Business)
    requires t in db.open && u in db.open && t != u && s != b
    requires db.open[t].clocks.Keys == {s} && db.open[t].statement.todo == [b]
    requires db.open[u].clocks.Keys == {b} && db.open[u].statement.todo == [s]
    ensures WaitCycle(ClockLocks(db), [t, u])
  {
    var w := ClockLocks(db);
    assert WaitsFor(w, t, u) && WaitsFor(w, u, t);
  }

  /** Each transaction inserts its row, and no other transaction runs. */
  ghost predicate TwoInserts(run: seq<Action>, t: TxId, k1: Key, r1: Row, u: TxId, k2: Key, r2: Row) {
    forall i :: 0 <= i < |run| ==>
      (run[i].t == t || run[i].t == u) && InsertsOnly(run[i], t, k1, r1) && InsertsOnly(run[i], u, k2, r2)
  }

  ghost predicate InsertsCanDeadlock(db: Database, t: TxId, k1: Key, r1: Row, u: TxId, k2: Key, r2: Row) {
    exists run :: Legal(db, run) && TwoInserts(run, t, k1, r1, u, k2, r2) && WaitCycle(ClockLocks(Run(db, run)), [t, u])
  }

  /** Each gets as far as the clock that the other holds. */
  function BothHalves(t: TxId, k1: Key, r1: Row, u: TxId, k2: Key, r2: Row): seq<Action> {
    HalfInsert(t, k1, r1) + HalfInsert(u, k2, r2)
  }

  lemma HalvesBlock(db: Database, t: TxId, k1: Key, r1: Row, u: TxId, k2: Key, r2: Row, s: Business, b: Business)
    requires db.open == map[] && t != u && k1 != k2 && Unheard(db, k1) && Unheard(db, k2)
    requires EmitOwners(r1.owners) == [s, b] && EmitOwners(r2.owners) == [b, s] && s != b
    ensures Legal(db, BothHalves(t, k1, r1, u, k2, r2))
    ensures WaitCycle(ClockLocks(Run(db, BothHalves(t, k1, r1, u, k2, r2))), [t, u])
  {
    HalfInsertLocksTheFirst(db, t, k1, r1, s, b);
    var mid := Run(db, HalfInsert(t, k1, r1));
    assert Unheard(mid, k2);
    HalfInsertLocksTheFirst(mid, u, k2, r2, b, s);
    RunsCompose(db, HalfInsert(t, k1, r1), HalfInsert(u, k2, r2));
    MutualWait(Run(mid, HalfInsert(u, k2, r2)), t, u, s, b);
  }

  lemma HalvesInsert(t: TxId, k1: Key, r1: Row, u: TxId, k2: Key, r2: Row)
    requires t != u
    ensures TwoInserts(BothHalves(t, k1, r1, u, k2, r2), t, k1, r1, u, k2, r2)
  {
  }

  lemma OpposedInsertsBlock(db: Database, t: TxId, k1: Key, r1: Row, u: TxId, k2: Key, r2: Row)
    requires db.open == map[] && t != u && k1 != k2 && Unheard(db, k1) && Unheard(db, k2)
    requires Opposed(EmitOwners(r1.owners), EmitOwners(r2.owners))
    ensures InsertsCanDeadlock(db, t, k1, r1, u, k2, r2)
  {
    var s, b := EmitOwners(r1.owners)[0], EmitOwners(r1.owners)[1];
    assert EmitOwners(r1.owners) == [s, b];
    HalvesBlock(db, t, k1, r1, u, k2, r2, s, b);
    HalvesInsert(t, k1, r1, u, k2, r2);
  }

  /** Two inserts can end up waiting for each other if and only if their triggers lock the same two
      clocks in opposite orders. */
  lemma InsertsDeadlockIff(db: Database, t: TxId, k1: Key, r1: Row, u: TxId, k2: Key, r2: Row)
    requires Inv(db) && db.open == map[] && t != u && k1 != k2 && Unheard(db, k1) && Unheard(db, k2)
    ensures InsertsCanDeadlock(db, t, k1, r1, u, k2, r2) <==> Opposed(EmitOwners(r1.owners), EmitOwners(r2.owners))
  {
    if InsertsCanDeadlock(db, t, k1, r1, u, k2, r2) {
      var run :| Legal(db, run) && TwoInserts(run, t, k1, r1, u, k2, r2) && WaitCycle(ClockLocks(Run(db, run)), [t, u]);
      WaitingInsertsAreOpposed(db, run, t, k1, r1, u, k2, r2);
    }
    if Opposed(EmitOwners(r1.owners), EmitOwners(r2.owners)) {
      OpposedInsertsBlock(db, t, k1, r1, u, k2, r2);
    }
  }

  // ---- order lines ----

  /** A line of an order that is there: its owners are the order's seller and buyer. */
  ghost predicate LineOf(db: Database, order: Key, row: Row) {
    && order.entity == ORDERS && order in db.rows && db.rows[order].owners.TwoSided?
    && row.owners == ViaOrder(db.rows[order].owners.seller, db.rows[order].owners.buyer)
  }

  /** Two different businesses trade, and the seller of each order is the buyer of the other. */
  predicate CrossedTrade(c: OwnerColumns, d: OwnerColumns)
    requires c.TwoSided? && d.TwoSided?
  {
    c.seller.Some? && c.buyer.Some? && c.seller != c.buyer && d.seller == c.buyer && d.buyer == c.seller
  }

  lemma LinesAreOpposedIff(s: Option<Business>, b: Option<Business>, s': Option<Business>, b': Option<Business>)
    ensures Opposed(EmitOwners(ViaOrder(s, b)), EmitOwners(ViaOrder(s', b'))) <==> CrossedTrade(TwoSided(s, b), TwoSided(s', b'))
  {
    var p, q := EmitOwners(ViaOrder(s, b)), EmitOwners(ViaOrder(s', b'));
    assert s.Some? && b.Some? ==> p == [s.value, b.value];
    assert s'.Some? && b'.Some? ==> q == [s'.value, b'.value];
    assert |p| == 2 <==> s.Some? && b.Some?;
    assert |q| == 2 <==> s'.Some? && b'.Some?;
    if Opposed(p, q) {
      assert q[0] == p[1] && q[1] == p[0];
    }
  }

  /** Inserts of lines of two orders can end up waiting for each other if and only if the orders are
      crossed. */
  lemma OrderLinesDeadlockIff(db: Database, t: TxId, k1: Key, r1: Row, o1: Key, u: TxId, k2: Key, r2: Row, o2: Key)
    requires Inv(db) && db.open == map[] && t != u && k1 != k2 && Unheard(db, k1) && Unheard(db, k2)
    requires LineOf(db, o1, r1) && LineOf(db, o2, r2)
    ensures InsertsCanDeadlock(db, t, k1, r1, u, k2, r2) <==> CrossedTrade(db.rows[o1].owners, db.rows[o2].owners)
  {
    InsertsDeadlockIff(db, t, k1, r1, u, k2, r2);
    var c, d := db.rows[o1].owners, db.rows[o2].owners;
    LinesAreOpposedIff(c.seller, c.buyer, d.seller, d.buyer);
  }

  /** Inserts of records that carry their owners never do. */
  lemma OwnColumnsNeverOppose(c: OwnerColumns, d: OwnerColumns)
    requires !c.ViaOrder? && !d.ViaOrder?
    ensures !Opposed(EmitOwners(c), EmitOwners(d))
  {
    if Opposed(EmitOwners(c), EmitOwners(d)) {
      OwnColumnsLockAscending(c, 0, 1);
      OwnColumnsLockAscending(d, 0, 1);
    }
  }

  const NO_LOG := Log(map[], [])

  /** Two orders between the same businesses, each selling to the other, are written; then a line of
      each is, and the two transactions block each other. */
  lemma CrossedOrdersBlock(s: Business, b: Business, o1: Key, o2: Key, k1: Key, k2: Key, body: string)
    returns (orders: seq<Action>, db: Database)
    requires s != b && o1.entity == ORDERS && o2.entity == ORDERS && o1 != o2 && k1 != k2
    requires k1 != o1 && k1 != o2 && k2 != o1 && k2 != o2
    ensures Legal(EMPTY_DATABASE, orders) && Run(EMPTY_DATABASE, orders) == db && db.open == map[]
    ensures LineOf(db, o1, Row(ViaOrder(Some(s), Some(b)), body)) && LineOf(db, o2, Row(ViaOrder(Some(b), Some(s)), body))
    ensures InsertsCanDeadlock(db, 1, k1, Row(ViaOrder(Some(s), Some(b)), body), 2, k2, Row(ViaOrder(Some(b), Some(s)), body))
  {
    var first, second := Row(TwoSided(Some(s), Some(b)), body), Row(TwoSided(Some(b), Some(s)), body);
    orders, db := BothOrders(s, b, o1, o2, first, second);
    RunKeepsInv(EMPTY_DATABASE, orders);
    OrderLinesDeadlockIff(db, 1, k1, Row(ViaOrder(Some(s), Some(b)), body), o1, 2, k2, Row(ViaOrder(Some(b), Some(s)), body), o2);
  }

  lemma BothOrders(s: Business, b: Business, o1: Key, o2: Key, first: Row, second: Row) returns (orders: seq<Action>, db: Database)
    requires s != b && o1 != o2
    requires first.owners == TwoSided(Some(s), Some(b)) && second.owners == TwoSided(Some(b), Some(s))
    ensures Legal(EMPTY_DATABASE, orders) && Run(EMPTY_DATABASE, orders) == db
    ensures db.open == map[] && db.rows == map[o1 := first, o2 := second]
    ensures forall e :: e in db.events ==> e.key == o1 || e.key == o2
  {
    var owners := EmitOwners(first.owners);
    assert EMPTY_DATABASE == Settled(map[], NO_LOG);
    var run1 := StoreWriteIsATransaction(map[], NO_LOG, o1, INSERT, first);
    var log1 := EmittedToAll(NO_LOG, owners, o1, INSERT);
    EmittedKeys(NO_LOG, owners, o1, INSERT);
    var run2 := StoreWriteIsATransaction(map[o1 := first], log1, o2, INSERT, second);
    EmittedKeys(log1, owners, o2, INSERT);
    RunsCompose(EMPTY_DATABASE, run1, run2);
    orders := run1 + run2;
    db := Settled(map[o1 := first][o2 := second], EmittedToAll(log1, owners, o2, INSERT));
  }

  /** Emitting adds events about the record only. */
  lemma {:induction false} EmittedKeys(log: Log, owners: seq<Business>, key: Key, op: Operation)
    ensures var log' := EmittedToAll(log, owners, key, op);
            forall e :: e in log'.events ==> e in log.events || e.key == key
  {
    if owners != [] {
      EmittedKeys(log, owners[..|owners| - 1], key, op);
    }
  }
}
