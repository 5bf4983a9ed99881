/** The inbox over any history: drains at any time, of any part of it and with any refusals, rows that
    arrive meanwhile, new held rows and the operator's retries.  When what is here is right, and which
    rows the cap leaves stuck. */
module InboxHistories {
  import opened Wrappers
  import opened Deferral
  import opened HeldInbox

  datatype Event =
    | Drain(now: int, limit: nat, rejects: set<ParentKey>)
    | Arrive(keys: set<ParentKey>)
    | Hold(row: Held, now: int)
    | Retry(i: nat, now: int)

  ghost function Next(box: Box, e: Event): Box {
    match e
    case Drain(now, limit, rejects) => Drained(box, now, limit, rejects)
    case Arrive(keys) => box.(local := box.local + keys)
    case Hold(row, now) => box.(slots := box.slots + [Slot(row, 0, now, false)])
    case Retry(i, now) =>
      if i >= |box.slots| || box.slots[i].applied then box
      else box.(slots := box.slots[i := box.slots[i].(attempts := 0, next := now)])
  }

  ghost function After(box: Box, es: seq<Event>): Box {
    if es == [] then box else Next(After(box, es[..|es| - 1]), es[|es| - 1])
  }

  /** The rows that were held along the way, in order. */
  function HeldIn(es: seq<Event>): seq<Held> {
    if es == [] then []
    else
      var e := es[|es| - 1];
      HeldIn(es[..|es| - 1]) + if e.Hold? then [e.row] else []
  }

  // ---- one drain ----

  lemma {:induction false} TryingGrows(box: Box, ks: seq<nat>, now: int, rejects: set<ParentKey>, i: nat)
    requires Indices(ks, |box.slots|) && i < |box.slots|
    ensures var after := TriedAll(box, ks, now, rejects);
            && box.local <= after.local && after.slots[i].row == box.slots[i].row
            && (after.slots[i].applied ==> box.slots[i].applied || box.slots[i].row.key in after.local)
            && (box.slots[i].applied ==> after.slots[i].applied)
  {
    if ks != [] {
      TryingGrows(box, ks[..|ks| - 1], now, rejects, i);
    }
  }

  /** Whoever is tried with all parents here, and nothing else wrong, is applied. */
  lemma {:induction false} ReadyIsApplied(box: Box, ks: seq<nat>, now: int, rejects: set<ParentKey>, i: nat)
    requires Indices(ks, |box.slots|) && i in ks && i < |box.slots|
    requires box.slots[i].row.parents <= box.local && box.slots[i].row.key !in rejects
    ensures TriedAll(box, ks, now, rejects).slots[i].applied
  {
    var front, k := ks[..|ks| - 1], ks[|ks| - 1];
    TryingGrows(box, front, now, rejects, i);
    TryingGrows(TriedAll(box, front, now, rejects), [k], now, rejects, i);
    assert [k][..0] == [];
    if k != i {
      assert ks == front + [k];
      ReadyIsApplied(box, front, now, rejects, i);
    }
  }

  /** Trying rows never brings more than a closed set allows. */
  lemma {:induction false} TryingStaysBelow(box: Box, ks: seq<nat>, now: int, rejects: set<ParentKey>, bound: set<ParentKey>)
    requires Indices(ks, |box.slots|) && box.local <= bound
    requires forall j :: 0 <= j < |ks| ==> ClosedAt(bound, box.slots[ks[j]].row)
    ensures TriedAll(box, ks, now, rejects).local <= bound
  {
    if ks != [] {
      var front := ks[..|ks| - 1];
      TryingStaysBelow(box, front, now, rejects, bound);
      TryingGrows(box, front, now, rejects, ks[|ks| - 1]);
    }
  }

  predicate ClosedAt(bound: set<ParentKey>, r: Held) {
    r.parents <= bound ==> r.key in bound
  }

  // ---- what is here ----

  function Arrived(es: seq<Event>): set<ParentKey> {
    if es == [] then {}
    else Arrived(es[..|es| - 1]) + if es[|es| - 1].Arrive? then es[|es| - 1].keys else {}
  }

  /** The rows ever held, but for those applied before the history. */
  ghost predicate EverHeld(box: Box, end: Box, i: nat) {
    i < |end.slots| && (i < |box.slots| ==> !box.slots[i].applied)
  }

  ghost predicate ClosedUnder(bound: set<ParentKey>, box: Box, end: Box) {
    forall i: nat :: EverHeld(box, end, i) ==> ClosedAt(bound, end.slots[i].row)
  }

  /** The least set with what was here and what arrived that is closed under the rows ever held. */
  ghost predicate LeastClosed(least: set<ParentKey>, start: set<ParentKey>, box: Box, end: Box) {
    && start <= least && ClosedUnder(least, box, end)
    && forall bound :: start <= bound && ClosedUnder(bound, box, end) ==> least <= bound
  }

  ghost predicate SlotsGoOn(box: Box, end: Box) {
    && |box.slots| <= |end.slots|
    && forall i :: 0 <= i < |box.slots| ==> end.slots[i].row == box.slots[i].row && (box.slots[i].applied ==> end.slots[i].applied)
  }

  lemma NextGoesOn(box: Box, e: Event)
    ensures SlotsGoOn(box, Next(box, e)) && box.local <= Next(box, e).local
  {
    if e.Drain? {
      forall i: nat | i < |box.slots|
        ensures Next(box, e).slots[i].row == box.slots[i].row && (box.slots[i].applied ==> Next(box, e).slots[i].applied)
      {
        TryingGrows(box, DrainOrder(box.slots, e.now, e.limit), e.now, e.rejects, i);
      }
      LocalGrows(box, DrainOrder(box.slots, e.now, e.limit), e.now, e.rejects);
    }
  }

  lemma {:induction false} LocalGrows(box: Box, ks: seq<nat>, now: int, rejects: set<ParentKey>)
    requires Indices(ks, |box.slots|)
    ensures box.local <= TriedAll(box, ks, now, rejects).local
  {
    if ks != [] {
      LocalGrows(box, ks[..|ks| - 1], now, rejects);
    }
  }

  lemma {:induction false} HistoryGoesOn(box: Box, es: seq<Event>)
    ensures SlotsGoOn(box, After(box, es)) && box.local + Arrived(es) <= After(box, es).local
  {
    if es != [] {
      HistoryGoesOn(box, es[..|es| - 1]);
      NextGoesOn(After(box, es[..|es| - 1]), es[|es| - 1]);
    }
  }

  lemma NextAppliesHere(mid: Box, e: Event, i: nat)
    requires i < |Next(mid, e).slots| && Next(mid, e).slots[i].applied
    ensures i < |mid.slots| && (mid.slots[i].applied || mid.slots[i].row.key in Next(mid, e).local)
  {
    if e.Drain? {
      TryingGrows(mid, DrainOrder(mid.slots, e.now, e.limit), e.now, e.rejects, i);
    }
  }

  /** Whatever was applied is here. */
  lemma {:induction false} AppliedAreHere(box: Box, es: seq<Event>, i: nat)
    requires EverHeld(box, After(box, es), i) && After(box, es).slots[i].applied
    ensures After(box, es).slots[i].row.key in After(box, es).local
  {
    if es != [] {
      var mid, e := After(box, es[..|es| - 1]), es[|es| - 1];
      NextAppliesHere(mid, e, i);
      NextGoesOn(mid, e);
      if mid.slots[i].applied {
        AppliedAreHere(box, es[..|es| - 1], i);
      }
    }
  }

  lemma NextStaysBelow(mid: Box, e: Event, bound: set<ParentKey>)
    requires mid.local <= bound && (e.Arrive? ==> e.keys <= bound)
    requires forall i :: 0 <= i < |mid.slots| && !mid.slots[i].applied ==> ClosedAt(bound, mid.slots[i].row)
    ensures Next(mid, e).local <= bound
  {
    if e.Drain? {
      DrainOrderIsDue(mid.slots, e.now, e.limit);
      var ks := DrainOrder(mid.slots, e.now, e.limit);
      assert forall j :: 0 <= j < |ks| ==> ks[j] in ks;
      TryingStaysBelow(mid, ks, e.now, e.rejects, bound);
    }
  }

  /** Nothing is here that a closed set with what was here and what arrived does without. */
  lemma {:induction false} HistoryStaysBelow(box: Box, es: seq<Event>, bound: set<ParentKey>)
    requires box.local + Arrived(es) <= bound && ClosedUnder(bound, box, After(box, es))
    ensures After(box, es).local <= bound
  {
    if es != [] {
      var front, e := es[..|es| - 1], es[|es| - 1];
      var mid, end := After(box, front), After(box, es);
      NextGoesOn(mid, e);
      HistoryGoesOn(box, front);
      forall i: nat | EverHeld(box, mid, i)
        ensures ClosedAt(bound, mid.slots[i].row)
      {
        assert EverHeld(box, end, i);
      }
      HistoryStaysBelow(box, front, bound);
      forall i: nat | i < |mid.slots| && !mid.slots[i].applied
        ensures ClosedAt(bound, mid.slots[i].row)
      {
        assert EverHeld(box, mid, i);
      }
      NextStaysBelow(mid, e, bound);
    }
  }

  /** No row that waits has all its parents here and would add anything. */
  ghost predicate NothingReady(end: Box) {
    forall i: nat :: i < |end.slots| && !end.slots[i].applied ==> ClosedAt(end.local, end.slots[i].row)
  }

  /** After any history what is here is the least set that it can be, if and only if no row that waits
      has all its parents here and would add anything. */
  lemma LeastClosedIff(box: Box, es: seq<Event>)
    ensures var end := After(box, es);
            LeastClosed(end.local, box.local + Arrived(es), box, end) <==> NothingReady(end)
  {
    var end := After(box, es);
    HistoryGoesOn(box, es);
    forall bound | box.local + Arrived(es) <= bound && ClosedUnder(bound, box, end)
      ensures end.local <= bound
    {
      HistoryStaysBelow(box, es, bound);
    }
    forall i: nat | EverHeld(box, end, i) && end.slots[i].applied
      ensures ClosedAt(end.local, end.slots[i].row)
    {
      AppliedAreHere(box, es, i);
    }
    forall i: nat | i < |end.slots| && !end.slots[i].applied
      ensures EverHeld(box, end, i)
    {
    }
  }

  /** The row was held at some time, and not applied before the history. */
  ghost predicate WasHeld(box: Box, end: Box, r: Held) {
    exists i: nat :: EverHeld(box, end, i) && end.slots[i].row == r
  }

  lemma SameRowsSameBounds(box: Box, end: Box, other: Box, otherEnd: Box, bound: set<ParentKey>)
    requires forall r :: WasHeld(box, end, r) ==> WasHeld(other, otherEnd, r)
    requires ClosedUnder(bound, other, otherEnd)
    ensures ClosedUnder(bound, box, end)
  {
    forall i: nat | EverHeld(box, end, i)
      ensures ClosedAt(bound, end.slots[i].row)
    {
      assert WasHeld(box, end, end.slots[i].row);
      var j: nat :| EverHeld(other, otherEnd, j) && otherEnd.slots[j].row == end.slots[i].row;
    }
  }

  /** Histories that bring the same rows, however they drain them and in whatever order, end with the same
      rows here as soon as neither leaves one that is ready. */
  lemma OrderIsIrrelevant(box: Box, es: seq<Event>, other: Box, fs: seq<Event>)
    requires box.local + Arrived(es) == other.local + Arrived(fs)
    requires forall r :: WasHeld(box, After(box, es), r) <==> WasHeld(other, After(other, fs), r)
    requires NothingReady(After(box, es)) && NothingReady(After(other, fs))
    ensures After(box, es).local == After(other, fs).local
  {
    var end, otherEnd := After(box, es), After(other, fs);
    LeastClosedIff(box, es);
    LeastClosedIff(other, fs);
    SameRowsSameBounds(box, end, other, otherEnd, otherEnd.local);
    SameRowsSameBounds(other, otherEnd, box, end, end.local);
  }

  // ---- who is stuck ----

  predicate OutOfAttempts(s: Slot) {
    !s.applied && s.attempts >= MAX_ATTEMPTS
  }

  /** Nothing but its parents is ever wrong with the row, and nobody retries it by hand. */
  predicate LeftAlone(es: seq<Event>, i: nat, key: ParentKey) {
    forall j :: 0 <= j < |es| ==> (es[j].Drain? ==> key !in es[j].rejects) && (es[j].Retry? ==> es[j].i != i)
  }

  lemma ReadyStep(mid: Box, e: Event, i: nat)
    requires i < |mid.slots| && mid.slots[i].row.parents <= mid.local && LeftAlone([e], i, mid.slots[i].row.key)
    ensures var s, s' := mid.slots[i], Next(mid, e).slots[i]; s' == s || s'.applied
  {
    assert [e][0] == e;
    if e.Drain? {
      var ks := DrainOrder(mid.slots, e.now, e.limit);
      DrainOrderDiffers(mid.slots, e.now, e.limit);
      TriedOnceEach(mid, ks, e.now, e.rejects, i);
      if i in ks {
        ReadyIsApplied(mid, ks, e.now, e.rejects, i);
      }
    }
  }

  lemma {:induction false} ReadyStays(mid: Box, es: seq<Event>, i: nat)
    requires i < |mid.slots| && mid.slots[i].row.parents <= mid.local && LeftAlone(es, i, mid.slots[i].row.key)
    ensures i < |After(mid, es).slots|
    ensures var s, s' := mid.slots[i], After(mid, es).slots[i]; s' == s || s'.applied
    ensures mid.slots[i].applied || OutOfAttempts(mid.slots[i]) ==> After(mid, es).slots[i] == mid.slots[i]
  {
    if es != [] {
      var front, e := es[..|es| - 1], es[|es| - 1];
      ReadyStays(mid, front, i);
      HistoryGoesOn(mid, front);
      NextGoesOn(After(mid, front), e);
      if After(mid, front).slots[i] == mid.slots[i] {
        ReadyStep(After(mid, front), e, i);
      }
      if After(mid, front).slots[i].applied || OutOfAttempts(After(mid, front).slots[i]) {
        OverStays(After(mid, front), e, i);
      }
    }
  }

  lemma OverStays(mid: Box, e: Event, i: nat)
    requires i < |mid.slots| && (mid.slots[i].applied || OutOfAttempts(mid.slots[i])) && (e.Retry? ==> e.i != i)
    ensures i < |Next(mid, e).slots| && Next(mid, e).slots[i] == mid.slots[i]
  {
    if e.Drain? {
      DrainedOnce(mid, e.now, e.limit, e.rejects, i);
    }
  }

  lemma {:induction false} HistoriesGoOn(box: Box, first: seq<Event>, more: seq<Event>)
    ensures After(box, first + more) == After(After(box, first), more)
  {
    if more == [] {
      assert first + more == first;
    } else {
      HistoriesGoOn(box, first, more[..|more| - 1]);
      assert (first + more)[..|first + more| - 1] == first + more[..|more| - 1];
    }
  }

  /** A row ends up stuck if and only if it was out of attempts by the time its parents were all here:
      it has exhausted them before, or it never will. */
  lemma StuckIff(box: Box, first: seq<Event>, more: seq<Event>, i: nat)
    requires var mid := After(box, first);
             i < |mid.slots| && mid.slots[i].row.parents <= mid.local && LeftAlone(more, i, mid.slots[i].row.key)
    ensures i < |After(box, first + more).slots|
    ensures OutOfAttempts(After(box, first + more).slots[i]) <==> OutOfAttempts(After(box, first).slots[i])
  {
    HistoriesGoOn(box, first, more);
    ReadyStays(After(box, first), more, i);
  }

  // ---- no row is lost, and none is stuck for good ----

  lemma {:induction false} TryingKeepsRows(box: Box, ks: seq<nat>, now: int, rejects: set<ParentKey>)
    requires Indices(ks, |box.slots|)
    ensures |TriedAll(box, ks, now, rejects).slots| == |box.slots|
    ensures forall i :: 0 <= i < |box.slots| ==> TriedAll(box, ks, now, rejects).slots[i].row == box.slots[i].row
  {
    forall i: nat | i < |box.slots|
      ensures TriedAll(box, ks, now, rejects).slots[i].row == box.slots[i].row
    {
      TryingGrows(box, ks, now, rejects, i);
    }
  }

  /** At any time the inbox has the rows it had and those held since, in that order. */
  lemma {:induction false} InboxKeepsEveryRow(box: Box, es: seq<Event>)
    ensures |After(box, es).slots| == |box.slots| + |HeldIn(es)|
    ensures forall i :: 0 <= i < |box.slots| ==> After(box, es).slots[i].row == box.slots[i].row
    ensures forall i :: 0 <= i < |HeldIn(es)| ==> After(box, es).slots[|box.slots| + i].row == HeldIn(es)[i]
  {
    if es != [] {
      var front, e := es[..|es| - 1], es[|es| - 1];
      InboxKeepsEveryRow(box, front);
      var mid := After(box, front);
      if e.Drain? {
        TryingKeepsRows(mid, DrainOrder(mid.slots, e.now, e.limit), e.now, e.rejects);
      }
    }
  }

  /** A retry revives a row that is out of attempts: with its parents here, and nothing else wrong with it, the
      next drain with room for the whole inbox applies it. */
  lemma RetryRevives(box: Box, i: nat, now: int, later: int, limit: nat, rejects: set<ParentKey>)
    requires i < |box.slots| <= limit && now <= later
    requires box.slots[i].row.parents <= box.local && box.slots[i].row.key !in rejects
    ensures var after := After(box, [Retry(i, now), Drain(later, limit, rejects)]);
            |after.slots| == |box.slots| && after.slots[i].applied
  {
    var retried := Next(box, Retry(i, now));
    var es := [Retry(i, now), Drain(later, limit, rejects)];
    var first := [Retry(i, now)];
    assert es[..1] == first && first[..0] == [];
    assert After(box, first) == retried;
    var ks := DrainOrder(retried.slots, later, limit);
    TryingGrows(retried, ks, later, rejects, i);
    if !box.slots[i].applied {
      DueRowsAre(retried.slots, later, limit);
      DrainTakesTheBatch(retried.slots, later, limit);
      ReadyIsApplied(retried, ks, later, rejects, i);
    }
  }

  /** A row that is newly held, or retried, has all its attempts before it: no drains give it up within seven hours
      of the first. */
  lemma NewcomersGetAllAttempts(box: Box, e: Event, i: nat, calls: seq<Call>, start: int)
    requires (e.Retry? && e.i == i && i < |box.slots| && !box.slots[i].applied) || (e.Hold? && i == |box.slots|)
    requires forall c :: 0 <= c < |calls| ==> start <= calls[c].now < start + 26475
    ensures var after := AfterCalls(Next(box, e), calls);
            |after.slots| == |Next(box, e).slots| && i < |after.slots| && (after.slots[i].applied || after.slots[i].attempts < 7)
  {
    NoneGivenUpEarly(Next(box, e), calls, start, i);
  }
}
