/** Chains of held rows: how many drains they take when children come first, and which of them the cap
    on attempts leaves stuck.  A drain takes the rows of child tables last, so a row of such a table
    follows its parent within one drain. */
module InboxChains {
  import opened Wrappers
  import opened Deferral
  import opened HeldInbox
  import opened InboxDrains

  // ---- the order of a drain ----

  /** No row of a child table comes before one of another. */
  ghost predicate EarlyFirst(rows: seq<Held>) {
    forall i, j :: 0 <= i < j < |rows| && Late(rows[i]) ==> Late(rows[j])
  }

  lemma PendingEarlyFirst(slots: seq<Slot>)
    ensures EarlyFirst(WaitingRows(slots))
  {
    OfKindAre(slots, Waiting(slots), false);
    OfKindAre(slots, Waiting(slots), true);
    var early, late := OfKind(slots, Waiting(slots), false), OfKind(slots, Waiting(slots), true);
    assert forall i :: 0 <= i < |early| ==> early[i] in early;
    assert forall i :: 0 <= i < |late| ==> late[i] in late;
  }

  lemma {:induction false} PassKeepsEarlyFirst(local: set<ParentKey>, rows: seq<Held>)
    requires EarlyFirst(rows)
    ensures EarlyFirst(Pass(local, rows).waiting)
  {
    if rows != [] {
      var front := rows[..|rows| - 1];
      PassKeepsEarlyFirst(local, front);
      PassSortsAllRows(local, front);
      var waiting := Pass(local, front).waiting;
      assert forall i :: 0 <= i < |waiting| ==> waiting[i] in waiting;
    }
  }

  lemma {:induction false} PassSplits(local: set<ParentKey>, a: seq<Held>, b: seq<Held>)
    ensures var p := Pass(local, a); var q := Pass(p.local, b);
            Pass(local, a + b) == Progress(q.local, p.waiting + q.waiting)
  {
    if b == [] {
      assert a + b == a && Pass(local, a).waiting + [] == Pass(local, a).waiting;
    } else {
      var front, r := b[..|b| - 1], b[|b| - 1];
      PassSplits(local, a, front);
      PassOneMore(local, a + front, r);
      assert a + b == a + front + [r];
    }
  }

  lemma {:induction false} KindsSplit(rows: seq<Held>) returns (n: nat)
    requires EarlyFirst(rows)
    ensures n <= |rows| && (forall i :: 0 <= i < n ==> !Late(rows[i])) && forall i :: n <= i < |rows| ==> Late(rows[i])
  {
    if rows == [] {
      n := 0;
    } else {
      n := KindsSplit(rows[..|rows| - 1]);
      if !Late(rows[|rows| - 1]) {
        n := |rows|;
      }
    }
  }

  // ---- how many drains ----

  ghost predicate Settles(box: Box, times: seq<int>) {
    var end := AfterDrains(box, times);
    forall i :: 0 <= i < |end.slots| ==> end.slots[i].applied
  }

  /** `depth` grows along every link but those from a child table to a parent of another; every parent is
      here or held. */
  ghost predicate Graded(start: set<ParentKey>, rows: seq<Held>, depth: map<ParentKey, nat>) {
    forall r :: r in rows ==> r.key in depth && forall p :: p in r.parents ==> p in start || Below(rows, depth, p, r)
  }

  ghost predicate Below(rows: seq<Held>, depth: map<ParentKey, nat>, p: ParentKey, r: Held)
    requires r.key in depth
  {
    exists q :: q in rows && q.key == p && p in depth &&
                (depth[p] < depth[r.key] || (depth[p] == depth[r.key] && !Late(q) && Late(r)))
  }

  /** All rows of depth below `floor` are here, and only deeper ones wait. */
  ghost predicate Settled(local: set<ParentKey>, rows: seq<Held>, all: seq<Held>, depth: map<ParentKey, nat>, floor: nat)
    requires forall r :: r in all ==> r.key in depth
  {
    && (forall r :: r in rows ==> r in all && depth[r.key] >= floor)
    && (forall r :: r in all && (r !in rows || depth[r.key] < floor) ==> r.key in local)
  }

  lemma EarlyParentsAreHere(start: set<ParentKey>, local: set<ParentKey>, rows: seq<Held>, all: seq<Held>,
                            depth: map<ParentKey, nat>, floor: nat, r: Held)
    requires Graded(start, all, depth) && start <= local && Settled(local, rows, all, depth, floor)
    requires r in all && depth[r.key] == floor && !Late(r)
    ensures r.parents <= local
  {
    forall p | p in r.parents
      ensures p in local
    {
      if p !in start {
        assert Below(all, depth, p, r);
      }
    }
  }

  /** Once the early rows have been tried, the parents of the late ones on the floor are here too. */
  lemma LateParentsAreHere(start: set<ParentKey>, local: set<ParentKey>, early: seq<Held>, late: seq<Held>, all: seq<Held>,
                           depth: map<ParentKey, nat>, floor: nat, r: Held)
    requires Graded(start, all, depth) && start <= local && Settled(local, early + late, all, depth, floor)
    requires r in all && depth[r.key] == floor && forall q :: q in late ==> Late(q)
    ensures r.parents <= Pass(local, early).local
  {
    PassOnlyAdds(local, early);
    PassSortsAllRows(local, early);
    forall p | p in r.parents
      ensures p in Pass(local, early).local
    {
      if p !in local {
        assert Below(all, depth, p, r);
        var q :| q in all && q.key == p && p in depth &&
                 (depth[p] < depth[r.key] || (depth[p] == depth[r.key] && !Late(q) && Late(r)));
        assert q in early + late && q in early;
        EarlyParentsAreHere(start, local, early + late, all, depth, floor, q);
      }
    }
  }

  lemma PassRaisesTheGrade(start: set<ParentKey>, local: set<ParentKey>, rows: seq<Held>, all: seq<Held>,
                           depth: map<ParentKey, nat>, floor: nat)
    requires Graded(start, all, depth) && start <= local && EarlyFirst(rows) && Settled(local, rows, all, depth, floor)
    ensures var p := Pass(local, rows); local <= p.local && Settled(p.local, p.waiting, all, depth, floor + 1)
  {
    var n := KindsSplit(rows);
    var early, late := rows[..n], rows[n..];
    assert rows == early + late;
    var p := Pass(local, early);
    PassSplits(local, early, late);
    PassOnlyAdds(local, rows);
    PassSortsAllRows(local, rows);
    PassSortsAllRows(local, early);
    PassSortsAllRows(p.local, late);
    forall r | r in Pass(local, rows).waiting
      ensures depth[r.key] >= floor + 1
    {
      if depth[r.key] == floor {
        if r in p.waiting {
          EarlyParentsAreHere(start, local, rows, all, depth, floor, r);
        } else {
          LateParentsAreHere(start, local, early, late, all, depth, floor, r);
        }
      }
    }
  }

  lemma {:induction false} GradesBoundPasses(start: set<ParentKey>, local: set<ParentKey>, rows: seq<Held>, all: seq<Held>,
                                             depth: map<ParentKey, nat>, floor: nat, n: nat)
    requires Graded(start, all, depth) && start <= local && EarlyFirst(rows) && Settled(local, rows, all, depth, floor)
    ensures var end := Passes(local, rows, n); Settled(end.local, end.waiting, all, depth, floor + n)
    decreases n
  {
    if n > 0 {
      PassRaisesTheGrade(start, local, rows, all, depth, floor);
      PassKeepsEarlyFirst(local, rows);
      var p := Pass(local, rows);
      GradesBoundPasses(start, p.local, p.waiting, all, depth, floor + 1, n - 1);
    }
  }

  /** With acyclic links, and no row waiting below more grades than there are drains, which are no more
      than the cap: every row is applied. */
  lemma ChainsDrainWithinTheCap(box: Box, times: seq<int>, depth: map<ParentKey, nat>)
    requires Patient(times) && 0 < |times| <= MAX_ATTEMPTS && AllDue(box.slots, 0, times[0])
    requires Graded(box.local, WaitingRows(box.slots), depth)
    requires forall r :: r in WaitingRows(box.slots) ==> depth[r.key] < |times|
    ensures Settles(box, times)
    ensures forall r :: r in WaitingRows(box.slots) ==> r.key in AfterDrains(box, times).local
  {
    var rows, end := WaitingRows(box.slots), AfterDrains(box, times);
    DrainsTryAll(box, 0, times);
    DrainsArePasses(box, 0, times);
    PendingEarlyFirst(box.slots);
    GradesBoundPasses(box.local, box.local, rows, rows, depth, 0, |times|);
    EmptyOrHasAMember(WaitingRows(end.slots));
    assert |Pending(end.slots)| == |WaitingRows(end.slots)| == 0;
    PendingAre(end.slots);
  }

  // ---- chains ----

  /** Each row waits for the one before it, and the first for none. */
  ghost predicate Chain(start: set<ParentKey>, rows: seq<Held>) {
    && (forall i :: 0 <= i < |rows| ==> rows[i].key !in start)
    && (forall i, j :: 0 <= i < j < |rows| ==> rows[i].key != rows[j].key)
    && (rows != [] ==> rows[0].parents <= start)
    && forall i :: 0 < i < |rows| ==> rows[i].parents == {rows[i - 1].key}
  }

  function Reversed(rows: seq<Held>): (back: seq<Held>)
    ensures |back| == |rows| && forall i :: 0 <= i < |rows| ==> back[i] == rows[|rows| - 1 - i]
  {
    if rows == [] then [] else Reversed(rows[1..]) + [rows[0]]
  }

  lemma {:induction false} NothingApplies(local: set<ParentKey>, rows: seq<Held>)
    requires forall r :: r in rows ==> !(r.parents <= local)
    ensures Pass(local, rows) == Progress(local, rows)
  {
    if rows != [] {
      NothingApplies(local, rows[..|rows| - 1]);
      assert rows == rows[..|rows| - 1] + [rows[|rows| - 1]];
    }
  }

  function KeysOf(rows: seq<Held>): set<ParentKey> {
    set r | r in rows :: r.key
  }

  /** The rows of child tables, or the others. */
  function Kind(rows: seq<Held>, late: bool): (kind: seq<Held>)
    ensures forall r :: r in kind <==> r in rows && Late(r) == late
  {
    if rows == [] then []
    else
      assert rows == rows[..|rows| - 1] + [rows[|rows| - 1]];
      Kind(rows[..|rows| - 1], late) + if Late(rows[|rows| - 1]) == late then [rows[|rows| - 1]] else []
  }

  function InDrainOrder(rows: seq<Held>): seq<Held> {
    Kind(rows, false) + Kind(rows, true)
  }

  /** The first `n` rows are here, and the others wait, children first but for the order of a drain. */
  function Standing(start: set<ParentKey>, rows: seq<Held>, n: nat): Progress
    requires n <= |rows|
  {
    Progress(start + KeysOf(rows[..n]), InDrainOrder(Reversed(rows[n..])))
  }

  /** The rows of a chain, but for those of child tables that follow one of another table. */
  function Turns(rows: seq<Held>): (n: nat)
    ensures n <= |rows| && (rows != [] ==> n > 0)
  {
    if rows == [] then 0
    else
      var last := |rows| - 1;
      Turns(rows[..last]) + if last > 0 && Late(rows[last]) && !Late(rows[last - 1]) then 0 else 1
  }

  lemma TurnsOfOneMore(rows: seq<Held>, n: nat)
    requires n < |rows|
    ensures Turns(rows[..n + 1]) == Turns(rows[..n]) + if n > 0 && Late(rows[n]) && !Late(rows[n - 1]) then 0 else 1
  {
    assert rows[..n + 1][..n] == rows[..n];
  }

  lemma {:induction false} TurnsGrow(rows: seq<Held>, m: nat, n: nat)
    requires m <= n <= |rows|
    ensures Turns(rows[..m]) <= Turns(rows[..n])
    decreases n
  {
    if m < n {
      TurnsGrow(rows, m, n - 1);
      TurnsOfOneMore(rows, n - 1);
    }
  }

  /** A turn ends here. */
  predicate TurnEnds(rows: seq<Held>, n: nat)
    requires n <= |rows|
  {
    0 < n < |rows| && Late(rows[n]) ==> Late(rows[n - 1])
  }

  function NextEnd(rows: seq<Held>, n: nat): (m: nat)
    requires n < |rows|
    ensures n < m <= |rows|
  {
    if n + 1 < |rows| && !Late(rows[n]) && Late(rows[n + 1]) then n + 2 else n + 1
  }

  lemma OneTurnMore(rows: seq<Held>, n: nat)
    requires n < |rows| && TurnEnds(rows, n)
    ensures TurnEnds(rows, NextEnd(rows, n)) && Turns(rows[..NextEnd(rows, n)]) == Turns(rows[..n]) + 1
  {
    TurnsOfOneMore(rows, n);
    if NextEnd(rows, n) == n + 2 {
      TurnsOfOneMore(rows, n + 1);
    }
  }

  lemma KeysOfOneMore(rows: seq<Held>, n: nat)
    requires n < |rows|
    ensures KeysOf(rows[..n + 1]) == KeysOf(rows[..n]) + {rows[n].key}
  {
    assert rows[..n + 1] == rows[..n] + [rows[n]];
  }

  lemma ParentIsThere(start: set<ParentKey>, rows: seq<Held>, n: nat)
    requires Chain(start, rows) && n < |rows|
    ensures rows[n].parents <= start + KeysOf(rows[..n])
  {
    if n > 0 {
      KeysOfOneMore(rows, n - 1);
    }
  }

  lemma LaterRowWaits(start: set<ParentKey>, rows: seq<Held>, n: nat, k: nat)
    requires Chain(start, rows) && n < k < |rows|
    ensures !(rows[k].parents <= start + KeysOf(rows[..n]))
  {
    var p := rows[k - 1].key;
    assert p in rows[k].parents && p !in start + KeysOf(rows[..n]);
  }

  lemma LaterRowsWait(start: set<ParentKey>, rows: seq<Held>, n: nat, late: bool)
    requires Chain(start, rows) && n < |rows|
    ensures forall r :: r in Kind(Reversed(rows[n + 1..]), late) ==> !(r.parents <= start + KeysOf(rows[..n]))
  {
    var children := Reversed(rows[n + 1..]);
    forall r | r in children
      ensures !(r.parents <= start + KeysOf(rows[..n]))
    {
      var i :| 0 <= i < |children| && children[i] == r;
      LaterRowWaits(start, rows, n, |rows| - 1 - i);
    }
  }

  /** Trying the rows of one kind from the `n`th on, children first: only the `n`th can be applied. */
  lemma OneOfAKind(start: set<ParentKey>, rows: seq<Held>, n: nat, late: bool)
    requires Chain(start, rows) && n < |rows|
    ensures Pass(start + KeysOf(rows[..n]), Kind(Reversed(rows[n..]), late)) ==
            Progress(start + KeysOf(rows[..if Late(rows[n]) == late then n + 1 else n]), Kind(Reversed(rows[n + 1..]), late))
  {
    var local, children := start + KeysOf(rows[..n]), Reversed(rows[n + 1..]);
    assert rows[n..][1..] == rows[n + 1..] && (children + [rows[n]])[..|children|] == children;
    LaterRowsWait(start, rows, n, late);
    NothingApplies(local, Kind(children, late));
    if Late(rows[n]) == late {
      ParentIsThere(start, rows, n);
      PassOneMore(local, Kind(children, late), rows[n]);
      KeysOfOneMore(rows, n);
      assert local + {rows[n].key} == start + KeysOf(rows[..n + 1]);
    } else {
      assert Kind(children, late) + [] == Kind(children, late);
    }
  }

  lemma OtherKind(rows: seq<Held>, n: nat, late: bool)
    requires n < |rows| && Late(rows[n]) != late
    ensures Kind(Reversed(rows[n..]), late) == Kind(Reversed(rows[n + 1..]), late)
  {
    var children := Reversed(rows[n + 1..]);
    assert rows[n..][1..] == rows[n + 1..] && (children + [rows[n]])[..|children|] == children;
  }

  /** A pass takes one turn. */
  lemma OnePassOneTurn(start: set<ParentKey>, rows: seq<Held>, n: nat)
    requires Chain(start, rows) && n < |rows| && TurnEnds(rows, n)
    ensures Pass(Standing(start, rows, n).local, Standing(start, rows, n).waiting) == Standing(start, rows, NextEnd(rows, n))
  {
    var local, here := start + KeysOf(rows[..n]), Reversed(rows[n..]);
    PassSplits(local, Kind(here, false), Kind(here, true));
    OneOfAKind(start, rows, n, false);
    if Late(rows[n]) {
      OneOfAKind(start, rows, n, true);
    } else {
      OtherKind(rows, n, true);
      if n + 1 < |rows| {
        OneOfAKind(start, rows, n + 1, true);
        if Late(rows[n + 1]) {
          OtherKind(rows, n + 1, false);
        } else {
          OtherKind(rows, n + 1, true);
        }
      }
    }
  }

  lemma TurnsAreLeft(rows: seq<Held>, m: nat)
    requires m <= |rows| && Turns(rows[..m]) < Turns(rows)
    ensures m < |rows|
  {
    assert rows[..|rows|] == rows;
  }

  /** So many passes lead there; quantified, so that passes are unfolded only where a proof names them. */
  ghost predicate Leads(p: Progress, k: nat, end: Progress) {
    forall n: nat :: n == k ==> Passes(p.local, p.waiting, n) == end
  }

  lemma OnePassFirst(p: Progress, q: Progress, k: nat, end: Progress)
    requires k > 0 && Pass(p.local, p.waiting) == q && Leads(q, k - 1, end)
    ensures Leads(p, k, end)
  {
    assert Passes(q.local, q.waiting, k - 1) == end;
  }

  lemma NoPass(p: Progress)
    ensures Leads(p, 0, p)
  {
  }

  /** A turn has ended at the `n`th row; quantified likewise. */
  ghost predicate EndsWith(start: set<ParentKey>, rows: seq<Held>, n: nat, turns: nat, p: Progress) {
    && n <= |rows| && TurnEnds(rows, n)
    && forall m: nat :: m == n ==> p == Standing(start, rows, m) && Turns(rows[..m]) == turns
  }

  lemma TakeOneTurn(start: set<ParentKey>, rows: seq<Held>, m: nat, turns: nat, p: Progress) returns (n: nat, q: Progress)
    requires Chain(start, rows) && EndsWith(start, rows, m, turns, p) && turns < Turns(rows)
    ensures EndsWith(start, rows, n, turns + 1, q) && Pass(p.local, p.waiting) == q
  {
    assert p == Standing(start, rows, m);
    TurnsAreLeft(rows, m);
    OneTurnMore(rows, m);
    OnePassOneTurn(start, rows, m);
    n := NextEnd(rows, m);
    q := Standing(start, rows, n);
  }

  lemma {:induction false} PassesTurnByTurn(start: set<ParentKey>, rows: seq<Held>, m: nat, turns: nat, k: nat, p: Progress)
    returns (n: nat, end: Progress)
    requires Chain(start, rows) && EndsWith(start, rows, m, turns, p) && turns + k <= Turns(rows)
    ensures EndsWith(start, rows, n, turns + k, end) && Leads(p, k, end)
    decreases k
  {
    if k == 0 {
      n, end := m, p;
      NoPass(p);
    } else {
      var l, q := TakeOneTurn(start, rows, m, turns, p);
      n, end := PassesTurnByTurn(start, rows, l, turns + 1, k - 1, q);
      OnePassFirst(p, q, k, end);
    }
  }

  lemma TurnsFromTheStart(start: set<ParentKey>, rows: seq<Held>, k: nat) returns (n: nat, end: Progress)
    requires Chain(start, rows) && k <= Turns(rows)
    ensures EndsWith(start, rows, n, k, end) && Leads(Progress(start, InDrainOrder(Reversed(rows))), k, end)
  {
    assert rows[0..] == rows && rows[..0] == [] && start + KeysOf([]) == start;
    n, end := PassesTurnByTurn(start, rows, 0, 0, k, Standing(start, rows, 0));
  }

  /** A chain that arrives children first: after so many drains as there are attempts, exactly the rows
      past the seventh turn are left, with no attempt left. */
  lemma LongChainsGetStuck(start: set<ParentKey>, rows: seq<Held>, box: Box, times: seq<int>) returns (n: nat)
    requires Chain(start, rows) && Turns(rows) >= MAX_ATTEMPTS && Patient(times) && |times| == MAX_ATTEMPTS
    requires box.local == start && WaitingRows(box.slots) == InDrainOrder(Reversed(rows)) && AllDue(box.slots, 0, times[0])
    ensures n <= |rows| && TurnEnds(rows, n) && Turns(rows[..n]) == MAX_ATTEMPTS
    ensures var end := AfterDrains(box, times);
            && |end.slots| == |box.slots| && AllTried(end.slots, MAX_ATTEMPTS)
            && WaitingRows(end.slots) == InDrainOrder(Reversed(rows[n..])) && end.local == start + KeysOf(rows[..n])
  {
    DrainsTryAll(box, 0, times);
    DrainsArePasses(box, 0, times);
    var last;
    n, last := TurnsFromTheStart(start, rows, |times|);
    assert last == Standing(start, rows, n);
    assert Passes(start, InDrainOrder(Reversed(rows)), |times|) == last;
  }

  // ---- exactly which chains drain ----

  /** A row that was applied, or is out of attempts, is left alone for good. */
  lemma {:induction false} OverIsOver(box: Box, times: seq<int>, i: nat)
    requires i < |box.slots| && (box.slots[i].applied || box.slots[i].attempts >= MAX_ATTEMPTS)
    ensures |AfterDrains(box, times).slots| == |box.slots| && AfterDrains(box, times).slots[i] == box.slots[i]
    decreases |times|
  {
    if times != [] {
      DrainedOnce(box, times[0], |box.slots|, {}, i);
      OverIsOver(Drained(box, times[0], |box.slots|, {}), times[1..], i);
    }
  }

  lemma {:induction false} DrainsGoOn(box: Box, first: seq<int>, more: seq<int>)
    ensures AfterDrains(box, first + more) == AfterDrains(AfterDrains(box, first), more)
    decreases |first|
  {
    if first == [] {
      assert first + more == more;
    } else {
      var next := Drained(box, first[0], |box.slots|, {});
      assert (first + more)[1..] == first[1..] + more;
      calc {
        AfterDrains(box, first + more);
      == { AfterDrainsNext(box, first + more); }
        AfterDrains(next, first[1..] + more);
      == { DrainsGoOn(next, first[1..], more); }
        AfterDrains(AfterDrains(next, first[1..]), more);
      == { AfterDrainsNext(box, first); }
        AfterDrains(AfterDrains(box, first), more);
      }
    }
  }

  /** The rows of the chain wait in the inbox, in any order, and have not been tried. */
  ghost predicate Delivers(box: Box, start: set<ParentKey>, rows: seq<Held>, now: int) {
    && box.local == start && AllDue(box.slots, 0, now) && |box.slots| == |rows|
    && (forall i :: 0 <= i < |box.slots| ==> !box.slots[i].applied && box.slots[i].row in rows)
    && forall r :: r in rows ==> r in WaitingRows(box.slots)
  }

  lemma WaitingRowsAre(slots: seq<Slot>, r: Held)
    ensures r in WaitingRows(slots) <==> exists i :: 0 <= i < |slots| && !slots[i].applied && slots[i].row == r
  {
    PendingAre(slots);
    var ks := Pending(slots);
    if r in WaitingRows(slots) {
      var j :| 0 <= j < |ks| && slots[ks[j]].row == r;
      assert ks[j] in ks;
    }
    if i :| 0 <= i < |slots| && !slots[i].applied && slots[i].row == r {
      var k: nat := i;
      assert k in ks;
      var j :| 0 <= j < |ks| && ks[j] == k;
      assert WaitingRows(slots)[j] == r;
    }
  }

  lemma SettledStays(box: Box, first: seq<int>, more: seq<int>)
    requires Settles(box, first)
    ensures Settles(box, first + more)
  {
    DrainsGoOn(box, first, more);
    var mid := AfterDrains(box, first);
    AfterDrainsKeepsSize(mid, more);
    forall i: nat | i < |mid.slots|
      ensures AfterDrains(mid, more).slots[i].applied
    {
      OverIsOver(mid, more, i);
    }
  }

  lemma {:induction false} AfterDrainsKeepsSize(box: Box, times: seq<int>)
    ensures |AfterDrains(box, times).slots| == |box.slots|
    decreases |times|
  {
    if times != [] {
      AfterDrainsKeepsSize(Drained(box, times[0], |box.slots|, {}), times[1..]);
    }
  }

  /** The turn in which each row is reached. */
  function TurnOf(rows: seq<Held>): map<ParentKey, nat> {
    if rows == [] then map[] else TurnOf(rows[..|rows| - 1])[rows[|rows| - 1].key := Turns(rows) - 1]
  }

  lemma {:induction false} TurnIs(rows: seq<Held>, d: nat)
    requires d < |rows| && forall i, j :: 0 <= i < j < |rows| ==> rows[i].key != rows[j].key
    ensures rows[d].key in TurnOf(rows) && TurnOf(rows)[rows[d].key] == Turns(rows[..d + 1]) - 1
    decreases |rows|
  {
    var front := rows[..|rows| - 1];
    if d < |front| {
      TurnIs(front, d);
      assert front[..d + 1] == rows[..d + 1] && front[d] == rows[d];
    } else {
      assert rows[..d + 1] == rows;
    }
  }

  lemma {:induction false} TurnsInTime(rows: seq<Held>, d: nat)
    requires d < |rows|
    ensures Turns(rows[..d + 1]) <= Turns(rows)
  {
    TurnsGrow(rows, d + 1, |rows|);
    assert rows[..|rows|] == rows;
  }

  lemma {:induction false} LinkIsGraded(start: set<ParentKey>, rows: seq<Held>, waiting: seq<Held>, d: nat)
    requires Chain(start, rows) && 0 < d < |rows| && rows[d - 1] in waiting
    ensures rows[d].key in TurnOf(rows) && Below(waiting, TurnOf(rows), rows[d - 1].key, rows[d])
  {
    TurnIs(rows, d);
    TurnIs(rows, d - 1);
    TurnsOfOneMore(rows, d);
  }

  lemma {:induction false} ChainIsGraded(start: set<ParentKey>, rows: seq<Held>, waiting: seq<Held>)
    requires Chain(start, rows) && forall r :: r in waiting <==> r in rows
    ensures Graded(start, waiting, TurnOf(rows)) && forall r :: r in waiting ==> TurnOf(rows)[r.key] < Turns(rows)
  {
    forall r | r in waiting
      ensures r.key in TurnOf(rows) && TurnOf(rows)[r.key] < Turns(rows)
      ensures forall p :: p in r.parents ==> p in start || Below(waiting, TurnOf(rows), p, r)
    {
      var d :| 0 <= d < |rows| && rows[d] == r;
      TurnIs(rows, d);
      TurnsInTime(rows, d);
      if d > 0 {
        assert rows[d - 1] in waiting;
        LinkIsGraded(start, rows, waiting, d);
      }
    }
  }

  lemma {:induction false} ShortChainSettlesInTime(start: set<ParentKey>, rows: seq<Held>, box: Box, times: seq<int>)
    requires Chain(start, rows) && 0 < Turns(rows) <= MAX_ATTEMPTS && Patient(times) && |times| == Turns(rows)
    requires Delivers(box, start, rows, times[0])
    ensures Settles(box, times)
  {
    forall r
      ensures r in WaitingRows(box.slots) <==> r in rows
    {
      WaitingRowsAre(box.slots, r);
    }
    ChainIsGraded(start, rows, WaitingRows(box.slots));
    ChainsDrainWithinTheCap(box, times, TurnOf(rows));
  }

  lemma {:induction false} ShortChainSettles(start: set<ParentKey>, rows: seq<Held>, box: Box, times: seq<int>)
    requires Chain(start, rows) && Turns(rows) <= MAX_ATTEMPTS && Patient(times) && |times| >= |rows| && times != []
    requires Delivers(box, start, rows, times[0])
    ensures Settles(box, times)
  {
    if rows == [] {
      AfterDrainsKeepsSize(box, times);
    } else {
      var n := Turns(rows);
      ShortChainSettlesInTime(start, rows, box, times[..n]);
      SettledStays(box, times[..n], times[n..]);
      assert times[..n] + times[n..] == times;
    }
  }

  /** A chain that arrived children first, all at once. */
  function ChildrenFirst(start: set<ParentKey>, rows: seq<Held>, now: int): Box {
    Box(start, seq(|rows|, i requires 0 <= i < |rows| => Slot(Reversed(rows)[i], 0, now, false)))
  }

  function RowsOf(slots: seq<Slot>): seq<Held> {
    seq(|slots|, i requires 0 <= i < |slots| => slots[i].row)
  }

  lemma FirstOfOneMore(n: nat)
    ensures seq(n + 1, i => i) == seq(n, i => i) + [n]
  {
  }

  lemma {:induction false} AllWait(slots: seq<Slot>, n: nat)
    requires n <= |slots| && forall i :: 0 <= i < |slots| ==> !slots[i].applied
    ensures Indices(seq(n, i => i), |slots|) && Unapplied(slots, seq(n, i => i)) == seq(n, i => i)
  {
    if n > 0 {
      AllWait(slots, n - 1);
      FirstOfOneMore(n - 1);
      UnappliedSplits(slots, seq(n - 1, i => i), n - 1);
    }
  }

  lemma KindOfOneMore(rows: seq<Held>, r: Held, late: bool)
    ensures Kind(rows + [r], late) == Kind(rows, late) + if Late(r) == late then [r] else []
  {
    assert (rows + [r])[..|rows|] == rows;
  }

  lemma RowsOfOneMore(slots: seq<Slot>, n: nat)
    requires n < |slots|
    ensures RowsOf(slots[..n + 1]) == RowsOf(slots[..n]) + [slots[n].row]
  {
  }

  lemma KindOfNext(slots: seq<Slot>, kind: seq<nat>, n: nat, late: bool)
    requires n < |slots| && Indices(kind, |slots|) && RowsAt(slots, kind) == Kind(RowsOf(slots[..n]), late)
    ensures var one := if Late(slots[n].row) == late then [n] else [];
            Indices(kind + one, |slots|) && RowsAt(slots, kind + one) == Kind(RowsOf(slots[..n + 1]), late)
  {
    var one := if Late(slots[n].row) == late then [n] else [];
    RowsOfOneMore(slots, n);
    KindOfOneMore(RowsOf(slots[..n]), slots[n].row, late);
    RowsAtBoth(slots, kind, one);
    assert RowsAt(slots, one) == if Late(slots[n].row) == late then [slots[n].row] else [];
  }

  lemma {:induction false} KindOfFirst(slots: seq<Slot>, ks: seq<nat>, n: nat, late: bool)
    requires n <= |slots| && |ks| == n && forall i :: 0 <= i < n ==> ks[i] == i
    ensures Indices(OfKind(slots, ks, late), |slots|)
    ensures RowsAt(slots, OfKind(slots, ks, late)) == Kind(RowsOf(slots[..n]), late)
  {
    if n > 0 {
      var front := ks[..n - 1];
      KindOfFirst(slots, front, n - 1, late);
      KindOfNext(slots, OfKind(slots, front, late), n - 1, late);
    }
  }

  lemma ChildrenFirstWait(start: set<ParentKey>, rows: seq<Held>, now: int)
    ensures WaitingRows(ChildrenFirst(start, rows, now).slots) == InDrainOrder(Reversed(rows))
  {
    var slots := ChildrenFirst(start, rows, now).slots;
    var all := seq(|rows|, i => i);
    AllWait(slots, |rows|);
    KindOfFirst(slots, all, |rows|, false);
    KindOfFirst(slots, all, |rows|, true);
    assert RowsOf(slots[..|rows|]) == Reversed(rows);
    RowsAtBoth(slots, OfKind(slots, all, false), OfKind(slots, all, true));
  }

  lemma RowsAtBoth(slots: seq<Slot>, a: seq<nat>, b: seq<nat>)
    requires Indices(a, |slots|) && Indices(b, |slots|)
    ensures RowsAt(slots, a + b) == RowsAt(slots, a) + RowsAt(slots, b)
  {
  }

  lemma ChildrenFirstDelivers(start: set<ParentKey>, rows: seq<Held>, now: int)
    ensures Delivers(ChildrenFirst(start, rows, now), start, rows, now)
  {
    ChildrenFirstWait(start, rows, now);
    ReversedHasAll(rows);
  }

  lemma ReversedHasAll(rows: seq<Held>)
    ensures forall r :: r in rows ==> r in Reversed(rows)
  {
    forall r | r in rows
      ensures r in Reversed(rows)
    {
      var d :| 0 <= d < |rows| && rows[d] == r;
      assert Reversed(rows)[|rows| - 1 - d] == r;
    }
  }

  lemma StuckStays(box: Box, first: seq<int>, more: seq<int>)
    requires AllTried(AfterDrains(box, first).slots, MAX_ATTEMPTS) && WaitingRows(AfterDrains(box, first).slots) != []
    ensures !Settles(box, first + more)
  {
    var mid := AfterDrains(box, first);
    PendingAre(mid.slots);
    var i := Pending(mid.slots)[0];
    assert i in Pending(mid.slots);
    OverIsOver(mid, more, i);
    DrainsGoOn(box, first, more);
  }

  lemma SomeAreLeft(rows: seq<Held>, n: nat)
    requires n < |rows|
    ensures InDrainOrder(Reversed(rows[n..])) != []
  {
    var left := Reversed(rows[n..]);
    assert left[|left| - 1] in left;
  }

  lemma StuckAfterTheCap(start: set<ParentKey>, rows: seq<Held>, box: Box, first: seq<int>, more: seq<int>)
    requires Chain(start, rows) && Turns(rows) > MAX_ATTEMPTS && Patient(first) && |first| == MAX_ATTEMPTS
    requires box.local == start && WaitingRows(box.slots) == InDrainOrder(Reversed(rows)) && AllDue(box.slots, 0, first[0])
    ensures !Settles(box, first + more)
  {
    var n := LongChainsGetStuck(start, rows, box, first);
    TurnsAreLeft(rows, n);
    SomeAreLeft(rows, n);
    StuckStays(box, first, more);
  }

  lemma {:induction false} LongChainDoesNotSettle(start: set<ParentKey>, rows: seq<Held>, times: seq<int>)
    requires Chain(start, rows) && Turns(rows) > MAX_ATTEMPTS && Patient(times) && |times| >= |rows|
    ensures !Settles(ChildrenFirst(start, rows, times[0]), times)
  {
    var first, more := times[..MAX_ATTEMPTS], times[MAX_ATTEMPTS..];
    ChildrenFirstWait(start, rows, times[0]);
    assert first + more == times;
    StuckAfterTheCap(start, rows, ChildrenFirst(start, rows, times[0]), first, more);
  }

  /** Given enough drains, the rows of a chain are all applied, in whatever order they arrived, if and
      only if it has no more turns than the cap. */
  lemma ChainSettlesIff(start: set<ParentKey>, rows: seq<Held>, times: seq<int>)
    requires Chain(start, rows) && Patient(times) && |times| >= |rows| && times != []
    ensures (forall box: Box :: Delivers(box, start, rows, times[0]) ==> Settles(box, times)) <==> Turns(rows) <= MAX_ATTEMPTS
  {
    if Turns(rows) <= MAX_ATTEMPTS {
      forall box: Box | Delivers(box, start, rows, times[0])
        ensures Settles(box, times)
      {
        ShortChainSettles(start, rows, box, times);
      }
    } else {
      LongChainDoesNotSettle(start, rows, times);
      ChildrenFirstDelivers(start, rows, times[0]);
    }
  }
}
