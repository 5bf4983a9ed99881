/** The inbox of held rows as it is drained: backoff, a batch limit, a cap on attempts; and which rows
    the cap leaves stuck. */
module HeldInbox {
  import opened Wrappers
  import opened Deferral

  /** Seconds until the next attempt, by the number of attempts made. */
  const BACKOFF := [0, 15, 60, 300, 900, 3600, 21600]
  const MAX_ATTEMPTS := 7

  /** The tables whose rows are drained last. */
  const CHILD_LAST: set<string> := {
    "invoice_line_items", "purchase_order_line_items", "purchase_invoice_line_items", "invoice_payments",
    "stock_transfer_line_items", "product_barcodes", "stock_ledger", "b2b_ledgers", "shift_cash_movements",
    "b2b_order_line_items"}

  predicate Late(r: Held) {
    r.key.table in CHILD_LAST
  }

  /** A held row, in order of arrival. */
  datatype Slot = Slot(row: Held, attempts: nat, next: int, applied: bool)

  /** The rows that are here, and the inbox. */
  datatype Box = Box(local: set<ParentKey>, slots: seq<Slot>)

  function Delay(attempts: nat): nat {
    BACKOFF[if attempts < |BACKOFF| then attempts else |BACKOFF| - 1]
  }

  predicate Due(s: Slot, now: int) {
    !s.applied && s.attempts < MAX_ATTEMPTS && s.next <= now
  }

  /** The oldest due rows, as many as the limit allows. */
  function DueRows(slots: seq<Slot>, now: int, limit: nat): seq<nat> {
    if slots == [] then []
    else
      var n, before := |slots| - 1, DueRows(slots[..|slots| - 1], now, limit);
      if Due(slots[n], now) && |before| < limit then before + [n] else before
  }

  predicate Indices(ks: seq<nat>, n: nat) {
    forall j :: 0 <= j < |ks| ==> ks[j] < n
  }

  /** Those of the rows that are drained late, or those that are not. */
  function OfKind(slots: seq<Slot>, ks: seq<nat>, late: bool): seq<nat>
    requires Indices(ks, |slots|)
  {
    if ks == [] then []
    else
      var i := ks[|ks| - 1];
      OfKind(slots, ks[..|ks| - 1], late) + if Late(slots[i].row) == late then [i] else []
  }

  /** One attempt: the row is applied if its parents are here and nothing else is wrong with it. */
  function Tried(box: Box, i: nat, now: int, rejects: set<ParentKey>): Box
    requires i < |box.slots|
  {
    var s := box.slots[i];
    if s.row.parents <= box.local && s.row.key !in rejects then
      Box(box.local + {s.row.key}, box.slots[i := s.(attempts := s.attempts + 1, applied := true)])
    else
      box.(slots := box.slots[i := s.(attempts := s.attempts + 1, next := now + Delay(s.attempts + 1))])
  }

  function TriedAll(box: Box, ks: seq<nat>, now: int, rejects: set<ParentKey>): (after: Box)
    requires Indices(ks, |box.slots|)
    ensures |after.slots| == |box.slots|
  {
    if ks == [] then box
    else
      Tried(TriedAll(box, ks[..|ks| - 1], now, rejects), ks[|ks| - 1], now, rejects)
  }

  lemma {:induction false} DueRowsAre(slots: seq<Slot>, now: int, limit: nat)
    ensures Indices(DueRows(slots, now, limit), |slots|)
    ensures forall j :: 0 <= j < |DueRows(slots, now, limit)| ==> Due(slots[DueRows(slots, now, limit)[j]], now)
    ensures |slots| <= limit ==> |DueRows(slots, now, limit)| <= |slots|
    ensures |slots| <= limit ==> forall i :: 0 <= i < |slots| && Due(slots[i], now) ==> i in DueRows(slots, now, limit)
  {
    if slots != [] {
      DueRowsAre(slots[..|slots| - 1], now, limit);
    }
  }

  /** The order in which a drain takes the rows: those of parent tables first. */
  ghost function DrainOrder(slots: seq<Slot>, now: int, limit: nat): (ks: seq<nat>)
    ensures Indices(ks, |slots|)
  {
    DueRowsAre(slots, now, limit);
    OfKindAre(slots, DueRows(slots, now, limit), false);
    OfKindAre(slots, DueRows(slots, now, limit), true);
    OfKind(slots, DueRows(slots, now, limit), false) + OfKind(slots, DueRows(slots, now, limit), true)
  }

  lemma {:induction false} OfKindAre(slots: seq<Slot>, ks: seq<nat>, late: bool)
    requires Indices(ks, |slots|)
    ensures Indices(OfKind(slots, ks, late), |slots|)
    ensures forall i :: i in OfKind(slots, ks, late) <==> i in ks && i < |slots| && Late(slots[i].row) == late
  {
    if ks != [] {
      OfKindAre(slots, ks[..|ks| - 1], late);
      assert ks == ks[..|ks| - 1] + [ks[|ks| - 1]];
    }
  }

  ghost function Drained(box: Box, now: int, limit: nat, rejects: set<ParentKey>): Box {
    TriedAll(box, DrainOrder(box.slots, now, limit), now, rejects)
  }

  class Inbox {
    var local: set<ParentKey>
    var slots: seq<Slot>

    constructor (here: set<ParentKey>)
      ensures local == here && slots == []
    {
      local, slots := here, [];
    }

    method Select(now: int, limit: nat) returns (ks: seq<nat>)
      ensures ks == DrainOrder(slots, now, limit)
    {
      var due: seq<nat> := [];
      var n := 0;
      while n < |slots|
        invariant 0 <= n <= |slots| && due == DueRows(slots[..n], now, limit)
      {
        assert slots[..n + 1][..n] == slots[..n];
        if Due(slots[n], now) && |due| < limit {
          due := due + [n];
        }
        n := n + 1;
      }
      assert slots[..n] == slots;
      DueRowsAre(slots, now, limit);
      ks := OfKind(slots, due, false) + OfKind(slots, due, true);
    }

    /** Retries the due rows once; `rejects` are those that fail for other reasons than a missing
        parent. */
    method Drain(now: int, limit: nat, rejects: set<ParentKey>)
      modifies this
      ensures Box(local, slots) == Drained(old(Box(local, slots)), now, limit, rejects)
    {
      var ks := Select(now, limit);
      var k := 0;
      while k < |ks|
        invariant 0 <= k <= |ks| && Indices(ks, |old(slots)|)
        invariant Box(local, slots) == TriedAll(old(Box(local, slots)), ks[..k], now, rejects)
      {
        assert ks[..k + 1][..k] == ks[..k];
        var s := slots[ks[k]];
        ghost var before := Box(local, slots);
        if s.row.parents <= local && s.row.key !in rejects {
          local := local + {s.row.key};
          slots := slots[ks[k] := s.(attempts := s.attempts + 1, applied := true)];
        } else {
          slots := slots[ks[k] := s.(attempts := s.attempts + 1, next := now + Delay(s.attempts + 1))];
        }
        assert Box(local, slots) == Tried(before, ks[k], now, rejects);
        k := k + 1;
      }
      assert ks[..k] == ks;
    }
  }

  // ---- what a drain does to one row ----

  predicate Ascends(ks: seq<nat>) {
    forall a, b :: 0 <= a < b < |ks| ==> ks[a] < ks[b]
  }

  lemma {:induction false} DueRowsAscend(slots: seq<Slot>, now: int, limit: nat)
    ensures Ascends(DueRows(slots, now, limit))
  {
    if slots != [] {
      DueRowsAscend(slots[..|slots| - 1], now, limit);
      DueRowsAre(slots[..|slots| - 1], now, limit);
    }
  }

  lemma {:induction false} OfKindAscends(slots: seq<Slot>, ks: seq<nat>, late: bool)
    requires Indices(ks, |slots|) && Ascends(ks)
    ensures Ascends(OfKind(slots, ks, late))
  {
    if ks != [] {
      var front := ks[..|ks| - 1];
      OfKindAscends(slots, front, late);
      OfKindAre(slots, front, late);
      var kind := OfKind(slots, front, late);
      forall a | 0 <= a < |kind|
        ensures kind[a] < ks[|ks| - 1]
      {
        assert kind[a] in kind;
      }
    }
  }

  lemma DrainOrderDiffers(slots: seq<Slot>, now: int, limit: nat)
    ensures Distinct(DrainOrder(slots, now, limit))
  {
    var due := DueRows(slots, now, limit);
    DueRowsAre(slots, now, limit);
    DueRowsAscend(slots, now, limit);
    OfKindAscends(slots, due, false);
    OfKindAscends(slots, due, true);
    OfKindAre(slots, due, false);
    OfKindAre(slots, due, true);
    var early, late := OfKind(slots, due, false), OfKind(slots, due, true);
    forall a, b | 0 <= a < |early| && 0 <= b < |late|
      ensures early[a] != late[b]
    {
      assert early[a] in early && late[b] in late;
    }
  }

  /** The batch is the oldest due rows, as many as the limit allows. */
  lemma {:induction false} OldestAreDue(slots: seq<Slot>, now: int, limit: nat)
    ensures |DueRows(slots, now, limit)| <= limit
    ensures forall i: nat :: i < |slots| && Due(slots[i], now) && i !in DueRows(slots, now, limit) ==>
              |DueRows(slots, now, limit)| == limit && forall j :: j in DueRows(slots, now, limit) ==> j < i
  {
    if slots != [] {
      var n := |slots| - 1;
      OldestAreDue(slots[..n], now, limit);
      DueRowsAre(slots[..n], now, limit);
      var before := DueRows(slots[..n], now, limit);
      assert forall j :: j in before ==> exists k :: 0 <= k < |before| && before[k] == j;
    }
  }

  lemma {:induction false} KindsAreAll(slots: seq<Slot>, ks: seq<nat>)
    requires Indices(ks, |slots|)
    ensures |OfKind(slots, ks, false)| + |OfKind(slots, ks, true)| == |ks|
  {
    if ks != [] {
      KindsAreAll(slots, ks[..|ks| - 1]);
    }
  }

  lemma DrainOrderIsDue(slots: seq<Slot>, now: int, limit: nat)
    ensures forall i :: i in DrainOrder(slots, now, limit) ==> i < |slots| && Due(slots[i], now)
  {
    var due := DueRows(slots, now, limit);
    DueRowsAre(slots, now, limit);
    OfKindAre(slots, due, false);
    OfKindAre(slots, due, true);
    forall i | i in DrainOrder(slots, now, limit)
      ensures i < |slots| && Due(slots[i], now)
    {
      assert i in due;
    }
  }

  lemma DrainTakesTheBatch(slots: seq<Slot>, now: int, limit: nat)
    ensures |DrainOrder(slots, now, limit)| == |DueRows(slots, now, limit)|
    ensures forall i :: i in DrainOrder(slots, now, limit) <==> i in DueRows(slots, now, limit)
  {
    var due := DueRows(slots, now, limit);
    DueRowsAre(slots, now, limit);
    KindsAreAll(slots, due);
    OfKindAre(slots, due, false);
    OfKindAre(slots, due, true);
    forall i | i in due
      ensures i in DrainOrder(slots, now, limit)
    {
      assert i < |slots|;
    }
  }

  /** Rows of other tables come before those of child tables; within each, the older first. */
  predicate Before(slots: seq<Slot>, i: nat, k: nat)
    requires i < |slots| && k < |slots|
  {
    if Late(slots[i].row) == Late(slots[k].row) then i < k else Late(slots[k].row)
  }

  lemma DrainIsOrdered(slots: seq<Slot>, now: int, limit: nat, a: nat, b: nat)
    requires a < b < |DrainOrder(slots, now, limit)|
    ensures Before(slots, DrainOrder(slots, now, limit)[a], DrainOrder(slots, now, limit)[b])
  {
    var due := DueRows(slots, now, limit);
    DueRowsAre(slots, now, limit);
    DueRowsAscend(slots, now, limit);
    OfKindAre(slots, due, false);
    OfKindAre(slots, due, true);
    OfKindAscends(slots, due, false);
    OfKindAscends(slots, due, true);
    var early, late := OfKind(slots, due, false), OfKind(slots, due, true);
    assert a < |early| ==> early[a] in early;
    assert a >= |early| ==> late[a - |early|] in late;
    assert b < |early| ==> early[b] in early;
    assert b >= |early| ==> late[b - |early|] in late;
  }

  /** A drain takes the oldest due rows, up to the limit: those of child tables after the others, and each
      kind in the order of arrival. */
  lemma DrainTakesTheOldest(slots: seq<Slot>, now: int, limit: nat)
    ensures var ks := DrainOrder(slots, now, limit);
            && |ks| <= limit && Distinct(ks)
            && (forall i :: i in ks ==> i < |slots| && Due(slots[i], now))
            && (forall i: nat :: i < |slots| && Due(slots[i], now) && i !in ks ==> |ks| == limit && forall j :: j in ks ==> j < i)
            && (forall a, b :: 0 <= a < b < |ks| ==> Before(slots, ks[a], ks[b]))
  {
    DrainTakesTheBatch(slots, now, limit);
    OldestAreDue(slots, now, limit);
    DrainOrderIsDue(slots, now, limit);
    DrainOrderDiffers(slots, now, limit);
    var ks := DrainOrder(slots, now, limit);
    forall a, b | 0 <= a < b < |ks|
      ensures Before(slots, ks[a], ks[b])
    {
      DrainIsOrdered(slots, now, limit, a, b);
    }
  }

  /** What one attempt may make of a slot. */
  predicate OnceTried(s: Slot, s': Slot, now: int) {
    && s'.row == s.row && s'.attempts == s.attempts + 1
    && (s'.applied || (s'.applied == s.applied && s'.next == now + Delay(s.attempts + 1)))
  }

  lemma TriedOne(box: Box, k: nat, now: int, rejects: set<ParentKey>, i: nat)
    requires k < |box.slots| && i < |box.slots|
    ensures var s, s' := box.slots[i], Tried(box, k, now, rejects).slots[i];
            if i == k then OnceTried(s, s', now) else s' == s
  {
  }

  lemma {:induction false} TriedOnceEach(box: Box, ks: seq<nat>, now: int, rejects: set<ParentKey>, i: nat)
    requires Indices(ks, |box.slots|) && Distinct(ks) && i < |box.slots|
    ensures var s, s' := box.slots[i], TriedAll(box, ks, now, rejects).slots[i];
            if i in ks then OnceTried(s, s', now) else s' == s
  {
    if ks != [] {
      var front, k := ks[..|ks| - 1], ks[|ks| - 1];
      TriedOnceEach(box, front, now, rejects, i);
      TriedOne(TriedAll(box, front, now, rejects), k, now, rejects, i);
      LastIsNew(ks);
    }
  }

  lemma LastIsNew(ks: seq<nat>)
    requires ks != [] && Distinct(ks)
    ensures ks[|ks| - 1] !in ks[..|ks| - 1] && forall i :: i in ks <==> i in ks[..|ks| - 1] || i == ks[|ks| - 1]
  {
    assert ks == ks[..|ks| - 1] + [ks[|ks| - 1]];
  }

  /** A drain leaves a row alone, or tries it once when it is due. */
  lemma DrainedOnce(box: Box, now: int, limit: nat, rejects: set<ParentKey>, i: nat)
    requires i < |box.slots|
    ensures var after := Drained(box, now, limit, rejects);
            && |after.slots| == |box.slots|
            && (after.slots[i] == box.slots[i] || (Due(box.slots[i], now) && OnceTried(box.slots[i], after.slots[i], now)))
  {
    DrainOrderDiffers(box.slots, now, limit);
    DrainOrderIsDue(box.slots, now, limit);
    TriedOnceEach(box, DrainOrder(box.slots, now, limit), now, rejects, i);
  }

  // ---- no row is given up early ----

  datatype Call = Call(now: int, limit: nat, rejects: set<ParentKey>)

  ghost function AfterCalls(box: Box, calls: seq<Call>): Box {
    if calls == [] then box
    else
      var c := calls[|calls| - 1];
      Drained(AfterCalls(box, calls[..|calls| - 1]), c.now, c.limit, c.rejects)
  }

  /** The delays after the first `n` attempts. */
  function Waited(n: nat): nat {
    if n == 0 then 0 else Waited(n - 1) + Delay(n)
  }

  predicate NotBefore(s: Slot, start: int) {
    s.attempts > 0 ==> s.applied || s.next >= start + Waited(s.attempts)
  }

  lemma {:induction false} AttemptsTakeTime(box: Box, calls: seq<Call>, start: int, i: nat)
    requires i < |box.slots| && box.slots[i].attempts == 0
    requires forall c :: 0 <= c < |calls| ==> calls[c].now >= start
    ensures |AfterCalls(box, calls).slots| == |box.slots| && NotBefore(AfterCalls(box, calls).slots[i], start)
  {
    if calls != [] {
      var front, c := calls[..|calls| - 1], calls[|calls| - 1];
      AttemptsTakeTime(box, front, start, i);
      DrainedOnce(AfterCalls(box, front), c.now, c.limit, c.rejects, i);
      assert c.now >= start;
    }
  }

  /** The delays after all attempts but the last, in seconds: a good seven hours. */
  lemma SevenHours()
    ensures Waited(MAX_ATTEMPTS - 1) == 26475 && forall n: nat :: n >= 6 ==> Delay(n) == 21600
  {
    assert Waited(1) == 15 && Waited(2) == 75 && Waited(3) == 375;
    assert Waited(4) == 1275 && Waited(5) == 4875 && Waited(6) == 26475;
  }

  /** Whatever the drains, their limits and their failures: no row is out of attempts within seven
      hours of the first drain. */
  lemma {:induction false} NoneGivenUpEarly(box: Box, calls: seq<Call>, start: int, i: nat)
    requires i < |box.slots| && box.slots[i].attempts == 0
    requires forall c :: 0 <= c < |calls| ==> start <= calls[c].now < start + 26475
    ensures |AfterCalls(box, calls).slots| == |box.slots|
    ensures AfterCalls(box, calls).slots[i].applied || AfterCalls(box, calls).slots[i].attempts < MAX_ATTEMPTS
  {
    if calls != [] {
      var front, c := calls[..|calls| - 1], calls[|calls| - 1];
      NoneGivenUpEarly(box, front, start, i);
      AttemptsTakeTime(box, front, start, i);
      DrainedOnce(AfterCalls(box, front), c.now, c.limit, c.rejects, i);
      SevenHours();
      assert c.now < start + 26475;
    }
  }
}
