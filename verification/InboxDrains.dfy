/** Drains with nothing else wrong are passes over the held rows, as long as attempts last. */
module InboxDrains {
  import opened Wrappers
  import opened Deferral
  import opened HeldInbox

  // ---- one drain is one pass ----

  function RowsAt(slots: seq<Slot>, ks: seq<nat>): seq<Held>
    requires Indices(ks, |slots|)
  {
    seq(|ks|, j requires 0 <= j < |ks| => slots[ks[j]].row)
  }

  /** Those that are not applied. */
  function Unapplied(slots: seq<Slot>, ks: seq<nat>): (rest: seq<nat>)
    requires Indices(ks, |slots|)
    ensures Indices(rest, |slots|) && |rest| <= |ks|
  {
    if ks == [] then []
    else if slots[ks[|ks| - 1]].applied then Unapplied(slots, ks[..|ks| - 1])
    else Unapplied(slots, ks[..|ks| - 1]) + [ks[|ks| - 1]]
  }

  lemma {:induction false} UnappliedAlike(slots: seq<Slot>, slots': seq<Slot>, ks: seq<nat>)
    requires Indices(ks, |slots|) && |slots'| == |slots|
    requires forall j :: 0 <= j < |ks| ==> slots'[ks[j]] == slots[ks[j]]
    ensures Unapplied(slots', ks) == Unapplied(slots, ks)
  {
    if ks != [] {
      UnappliedAlike(slots, slots', ks[..|ks| - 1]);
    }
  }

  predicate SameRows(slots: seq<Slot>, slots': seq<Slot>) {
    |slots'| == |slots| && forall i :: 0 <= i < |slots| ==> slots'[i].row == slots[i].row
  }

  lemma {:induction false} TriedAllKeepsRows(box: Box, ks: seq<nat>, now: int, rejects: set<ParentKey>)
    requires Indices(ks, |box.slots|)
    ensures SameRows(box.slots, TriedAll(box, ks, now, rejects).slots)
  {
    if ks != [] {
      TriedAllKeepsRows(box, ks[..|ks| - 1], now, rejects);
    }
  }

  lemma RowsAtAppended(slots: seq<Slot>, ks: seq<nat>, k: nat)
    requires Indices(ks, |slots|) && k < |slots|
    ensures RowsAt(slots, ks + [k]) == RowsAt(slots, ks) + [slots[k].row]
  {
  }

  lemma UnappliedSplits(slots: seq<Slot>, ks: seq<nat>, k: nat)
    requires Indices(ks, |slots|) && k < |slots|
    ensures Unapplied(slots, ks + [k]) == if slots[k].applied then Unapplied(slots, ks) else Unapplied(slots, ks) + [k]
  {
    assert (ks + [k])[..|ks|] == ks;
  }

  lemma PassOneMore(local: set<ParentKey>, rows: seq<Held>, r: Held)
    ensures var before := Pass(local, rows);
            Pass(local, rows + [r]) ==
            if r.parents <= before.local then before.(local := before.local + {r.key}) else before.(waiting := before.waiting + [r])
  {
    assert (rows + [r])[..|rows|] == rows;
  }

  /** What a pass has made of the rows tried so far. */
  ghost predicate IsPass(slots: seq<Slot>, local: set<ParentKey>, ks: seq<nat>, after: Box)
    requires Indices(ks, |slots|) && SameRows(slots, after.slots)
  {
    Pass(local, RowsAt(slots, ks)) == Progress(after.local, RowsAt(slots, Unapplied(after.slots, ks)))
  }

  lemma OneMoreWaits(slots: seq<Slot>, box: Box, ks: seq<nat>, k: nat, now: int)
    requires Indices(ks, |slots|) && k < |slots| && k !in ks && |box.slots| == |slots| && !box.slots[k].applied
    ensures var after := Tried(box, k, now, {});
            RowsAt(slots, Unapplied(after.slots, ks + [k])) ==
            RowsAt(slots, Unapplied(box.slots, ks)) + if after.slots[k].applied then [] else [slots[k].row]
  {
    var after := Tried(box, k, now, {});
    UnappliedAlike(box.slots, after.slots, ks);
    UnappliedSplits(after.slots, ks, k);
    var rest := Unapplied(box.slots, ks);
    RowsAtAppended(slots, rest, k);
    assert RowsAt(slots, rest) + [] == RowsAt(slots, rest);
  }

  lemma TriedIs(box: Box, k: nat, now: int, row: Held)
    requires k < |box.slots| && !box.slots[k].applied && box.slots[k].row == row
    ensures var after := Tried(box, k, now, {});
            && SameRows(box.slots, after.slots) && after.slots[k].applied == (row.parents <= box.local)
            && after.local == if row.parents <= box.local then box.local + {row.key} else box.local
  {
  }

  lemma OneMoreIsAPass(slots: seq<Slot>, local: set<ParentKey>, ks: seq<nat>, k: nat, box: Box, now: int)
    requires Indices(ks, |slots|) && k < |slots| && k !in ks && SameRows(slots, box.slots) && !box.slots[k].applied
    requires IsPass(slots, local, ks, box)
    ensures SameRows(slots, Tried(box, k, now, {}).slots) && IsPass(slots, local, ks + [k], Tried(box, k, now, {}))
  {
    TriedIs(box, k, now, slots[k].row);
    OneMoreWaits(slots, box, ks, k, now);
    RowsAtAppended(slots, ks, k);
    PassOneMore(local, RowsAt(slots, ks), slots[k].row);
    assert RowsAt(slots, Unapplied(box.slots, ks)) + [] == RowsAt(slots, Unapplied(box.slots, ks));
  }

  /** Trying rows in turn applies, and leaves, what a pass over them does. */
  lemma {:induction false} TriedAllIsAPass(box: Box, ks: seq<nat>, now: int)
    requires Indices(ks, |box.slots|) && Distinct(ks) && forall j :: 0 <= j < |ks| ==> !box.slots[ks[j]].applied
    ensures SameRows(box.slots, TriedAll(box, ks, now, {}).slots)
    ensures IsPass(box.slots, box.local, ks, TriedAll(box, ks, now, {}))
  {
    TriedAllKeepsRows(box, ks, now, {});
    if ks != [] {
      var front, k := ks[..|ks| - 1], ks[|ks| - 1];
      TriedAllIsAPass(box, front, now);
      TriedOnceEach(box, front, now, {}, k);
      LastIsNew(ks);
      OneMoreIsAPass(box.slots, box.local, front, k, TriedAll(box, front, now, {}), now);
      assert ks == front + [k];
    }
  }

  // ---- which rows wait, in which order ----

  /** The rows that are not applied, oldest first. */
  function Waiting(slots: seq<Slot>): (ks: seq<nat>)
    ensures Indices(ks, |slots|)
  {
    Unapplied(slots, seq(|slots|, i => i))
  }

  /** ... in the order of a drain. */
  function Pending(slots: seq<Slot>): (ks: seq<nat>)
    ensures Indices(ks, |slots|)
  {
    OfKindAre(slots, Waiting(slots), false);
    OfKindAre(slots, Waiting(slots), true);
    OfKind(slots, Waiting(slots), false) + OfKind(slots, Waiting(slots), true)
  }

  /** Every row that waits has been tried `n` times and is due. */
  ghost predicate AllDue(slots: seq<Slot>, n: nat, now: int) {
    forall i :: 0 <= i < |slots| && !slots[i].applied ==> slots[i].attempts == n && slots[i].next <= now
  }

  lemma {:induction false} WaitingAreDue(slots: seq<Slot>, m: nat, n: nat, now: int)
    requires m <= |slots| && AllDue(slots, n, now) && n < MAX_ATTEMPTS
    ensures Indices(seq(m, i => i), |slots|) && DueRows(slots[..m], now, |slots|) == Unapplied(slots, seq(m, i => i))
  {
    if m > 0 {
      WaitingAreDue(slots, m - 1, n, now);
      assert slots[..m][..m - 1] == slots[..m - 1];
      assert seq(m, i => i)[..m - 1] == seq(m - 1, i => i);
    } else {
      assert slots[..0] == [];
    }
  }

  lemma DrainTakesPending(slots: seq<Slot>, n: nat, now: int)
    requires AllDue(slots, n, now) && n < MAX_ATTEMPTS
    ensures DrainOrder(slots, now, |slots|) == Pending(slots)
  {
    WaitingAreDue(slots, |slots|, n, now);
    assert slots[..|slots|] == slots;
  }

  predicate OnlyApplies(slots: seq<Slot>, slots': seq<Slot>) {
    SameRows(slots, slots') && forall i :: 0 <= i < |slots| && slots[i].applied ==> slots'[i].applied
  }

  lemma {:induction false} UnappliedLater(slots: seq<Slot>, slots': seq<Slot>, ks: seq<nat>)
    requires OnlyApplies(slots, slots') && Indices(ks, |slots|)
    ensures Unapplied(slots', Unapplied(slots, ks)) == Unapplied(slots', ks)
  {
    if ks != [] {
      UnappliedLater(slots, slots', ks[..|ks| - 1]);
      UnappliedSplits(slots', Unapplied(slots, ks[..|ks| - 1]), ks[|ks| - 1]);
    }
  }

  lemma OfKindSplits(slots: seq<Slot>, ks: seq<nat>, k: nat, late: bool)
    requires Indices(ks, |slots|) && k < |slots|
    ensures OfKind(slots, ks + [k], late) == OfKind(slots, ks, late) + if Late(slots[k].row) == late then [k] else []
  {
    assert (ks + [k])[..|ks|] == ks;
  }

  lemma {:induction false} KindOfUnapplied(slots: seq<Slot>, slots': seq<Slot>, ks: seq<nat>, late: bool)
    requires SameRows(slots, slots') && Indices(ks, |slots|)
    ensures Indices(OfKind(slots, ks, late), |slots|)
    ensures OfKind(slots', Unapplied(slots', ks), late) == Unapplied(slots', OfKind(slots, ks, late))
  {
    OfKindAre(slots, ks, late);
    if ks != [] {
      var front, k := ks[..|ks| - 1], ks[|ks| - 1];
      KindOfUnapplied(slots, slots', front, late);
      var rest, kind := Unapplied(slots', front), OfKind(slots, front, late);
      OfKindSplits(slots', rest, k, late);
      UnappliedSplits(slots', kind, k);
      assert rest + [] == rest && kind + [] == kind;
    }
  }

  lemma {:induction false} UnappliedOfBoth(slots: seq<Slot>, a: seq<nat>, b: seq<nat>)
    requires Indices(a, |slots|) && Indices(b, |slots|)
    ensures Unapplied(slots, a + b) == Unapplied(slots, a) + Unapplied(slots, b)
  {
    if b == [] {
      assert a + b == a;
    } else {
      UnappliedOfBoth(slots, a, b[..|b| - 1]);
      assert (a + b)[..|a + b| - 1] == a + b[..|b| - 1];
    }
  }

  /** What still waits keeps its order. */
  lemma PendingLater(slots: seq<Slot>, slots': seq<Slot>)
    requires OnlyApplies(slots, slots')
    ensures Pending(slots') == Unapplied(slots', Pending(slots))
  {
    UnappliedLater(slots, slots', seq(|slots|, i => i));
    KindOfUnapplied(slots, slots', Waiting(slots), false);
    KindOfUnapplied(slots, slots', Waiting(slots), true);
    UnappliedOfBoth(slots', OfKind(slots, Waiting(slots), false), OfKind(slots, Waiting(slots), true));
  }

  // ---- drains that come late enough for every row to be due ----

  /** The longest delay between two attempts. */
  const LONGEST := 21600

  ghost predicate Patient(times: seq<int>) {
    forall k :: 0 <= k && k + 1 < |times| ==> times[k] + LONGEST <= times[k + 1]
  }

  /** Drains at these times, of the whole inbox, in which nothing is wrong with any row. */
  ghost function AfterDrains(box: Box, times: seq<int>): Box
    decreases |times|
  {
    if times == [] then box else AfterDrains(Drained(box, times[0], |box.slots|, {}), times[1..])
  }

  function WaitingRows(slots: seq<Slot>): seq<Held> {
    RowsAt(slots, Pending(slots))
  }

  lemma {:induction false} UnappliedAre(slots: seq<Slot>, ks: seq<nat>)
    requires Indices(ks, |slots|)
    ensures forall i :: i in Unapplied(slots, ks) <==> i in ks && i < |slots| && !slots[i].applied
  {
    if ks != [] {
      UnappliedAre(slots, ks[..|ks| - 1]);
      assert ks == ks[..|ks| - 1] + [ks[|ks| - 1]];
    }
  }

  lemma PendingAre(slots: seq<Slot>)
    ensures forall i: nat :: i in Pending(slots) <==> i < |slots| && !slots[i].applied
  {
    var all := seq(|slots|, i => i);
    UnappliedAre(slots, all);
    OfKindAre(slots, Waiting(slots), false);
    OfKindAre(slots, Waiting(slots), true);
    forall i: nat | i < |slots|
      ensures i in all
    {
      assert all[i] == i;
    }
  }

  lemma PendingAreTriedOnce(box: Box, n: nat, now: int, i: nat)
    requires AllDue(box.slots, n, now) && n < MAX_ATTEMPTS && i < |box.slots|
    ensures var s, s' := box.slots[i], Drained(box, now, |box.slots|, {}).slots[i];
            if s.applied then s' == s else OnceTried(s, s', now)
  {
    var ks := DrainOrder(box.slots, now, |box.slots|);
    DrainTakesPending(box.slots, n, now);
    DrainOrderDiffers(box.slots, now, |box.slots|);
    PendingAre(box.slots);
    TriedOnceEach(box, ks, now, {}, i);
  }

  lemma DrainLeavesAllDue(box: Box, n: nat, now: int)
    requires AllDue(box.slots, n, now) && n < MAX_ATTEMPTS
    ensures var after := Drained(box, now, |box.slots|, {});
            OnlyApplies(box.slots, after.slots) && AllDue(after.slots, n + 1, now + LONGEST)
  {
    var after := Drained(box, now, |box.slots|, {});
    TriedAllKeepsRows(box, DrainOrder(box.slots, now, |box.slots|), now, {});
    forall i | 0 <= i < |box.slots|
      ensures if box.slots[i].applied then after.slots[i] == box.slots[i] else OnceTried(box.slots[i], after.slots[i], now)
    {
      PendingAreTriedOnce(box, n, now, i);
    }
  }

  function ProgressOf(box: Box): Progress {
    Progress(box.local, WaitingRows(box.slots))
  }

  lemma RowsAtAlike(slots: seq<Slot>, slots': seq<Slot>, ks: seq<nat>)
    requires SameRows(slots, slots') && Indices(ks, |slots|)
    ensures RowsAt(slots', ks) == RowsAt(slots, ks)
  {
  }

  /** A drain of which every waiting row is due is one pass over them. */
  lemma DrainIsAPass(box: Box, n: nat, now: int)
    requires AllDue(box.slots, n, now) && n < MAX_ATTEMPTS
    ensures var after := Drained(box, now, |box.slots|, {});
            Pass(ProgressOf(box).local, ProgressOf(box).waiting) == ProgressOf(after)
  {
    var after, ks := Drained(box, now, |box.slots|, {}), Pending(box.slots);
    DrainTakesPending(box.slots, n, now);
    DrainOrderDiffers(box.slots, now, |box.slots|);
    PendingAre(box.slots);
    assert forall j :: 0 <= j < |ks| ==> ks[j] in ks;
    TriedAllIsAPass(box, ks, now);
    DrainLeavesAllDue(box, n, now);
    PendingLater(box.slots, after.slots);
    RowsAtAlike(box.slots, after.slots, Pending(after.slots));
  }

  lemma PassesNext(p: Progress, n: nat)
    requires n > 0
    ensures Passes(p.local, p.waiting, n) == Passes(Pass(p.local, p.waiting).local, Pass(p.local, p.waiting).waiting, n - 1)
  {
  }

  ghost predicate AllTried(slots: seq<Slot>, n: nat) {
    forall i :: 0 <= i < |slots| && !slots[i].applied ==> slots[i].attempts == n
  }

  lemma AfterDrainsNext(box: Box, times: seq<int>)
    requires times != []
    ensures AfterDrains(box, times) == AfterDrains(Drained(box, times[0], |box.slots|, {}), times[1..])
  {
  }

  /** Each waiting row has been tried `n` times, and is due at the first of the times. */
  ghost predicate Ready(slots: seq<Slot>, n: nat, times: seq<int>) {
    Patient(times) && n + |times| <= MAX_ATTEMPTS && AllTried(slots, n) && (times != [] ==> AllDue(slots, n, times[0]))
  }

  lemma StillReady(box: Box, n: nat, times: seq<int>, next: Box)
    requires times != [] && Ready(box.slots, n, times) && next == Drained(box, times[0], |box.slots|, {})
    ensures |next.slots| == |box.slots| && Ready(next.slots, n + 1, times[1..])
  {
    DrainLeavesAllDue(box, n, times[0]);
  }

  lemma {:induction false} DrainsTryAll(box: Box, n: nat, times: seq<int>)
    requires Ready(box.slots, n, times)
    ensures |AfterDrains(box, times).slots| == |box.slots| && AllTried(AfterDrains(box, times).slots, n + |times|)
    decreases |times|
  {
    if times != [] {
      var next := Drained(box, times[0], |box.slots|, {});
      StillReady(box, n, times, next);
      DrainsTryAll(next, n + 1, times[1..]);
    }
  }

  /** As long as attempts last, so many drains are so many passes. */
  lemma {:induction false} DrainsArePasses(box: Box, n: nat, times: seq<int>)
    requires Ready(box.slots, n, times)
    ensures Passes(ProgressOf(box).local, ProgressOf(box).waiting, |times|) == ProgressOf(AfterDrains(box, times))
    decreases |times|
  {
    if times != [] {
      var next := Drained(box, times[0], |box.slots|, {});
      StillReady(box, n, times, next);
      calc {
        Passes(ProgressOf(box).local, ProgressOf(box).waiting, |times|);
      == { PassesNext(ProgressOf(box), |times|); DrainIsAPass(box, n, times[0]); }
        Passes(ProgressOf(next).local, ProgressOf(next).waiting, |times[1..]|);
      == { DrainsArePasses(next, n + 1, times[1..]); }
        ProgressOf(AfterDrains(next, times[1..]));
      == { AfterDrainsNext(box, times); }
        ProgressOf(AfterDrains(box, times));
      }
    }
  }
}
