/** The guard under concurrency.  A line is announced to replicas before it is guarded, under the clock
    of a business that owns the document, which stays locked to the end of the transaction: inserters of
    one document wait for each other, unless nobody owns it. */
module OverfillRaces {
  import opened Wrappers
  import opened FeedOwners
  import opened Overfill

  /** A document's committed lines, those of each transaction under way, and who has the clock that its
      lines are announced under. */
  datatype Race = Race(lines: seq<int>, open: seq<seq<int>>, clock: Option<nat>)

  /** A transaction inserts a line, takes the clock by some other write, rolls back to a savepoint after
      its first `n` lines, or ends. */
  datatype Step =
    | Insert(t: nat, line: int)
    | Touch(t: nat)
    | Rollback(t: nat, n: nat, keeps: bool)
    | Commit(t: nat)
    | Abort(t: nat)

  /** Lines are announced to somebody. */
  predicate Owned(c: OwnerColumns) {
    EmitOwners(c) != []
  }

  predicate ClockOpen(r: Race, t: nat) {
    r.clock == None || r.clock == Some(t)
  }

  function Unlocked(r: Race, t: nat): Option<nat> {
    if r.clock == Some(t) then None else r.clock
  }

  /** Whoever has to wait, or is refused, leaves things as they are. */
  function Next(c: OwnerColumns, target: Option<int>, r: Race, s: Step): Race {
    if s.t >= |r.open| then r
    else
      match s
      case Insert(t, line) =>
        if (Owned(c) && !ClockOpen(r, t)) || !Accepts(Postgres, target, Sum(r.lines + r.open[t]), line) then r
        else r.(open := r.open[t := r.open[t] + [line]], clock := if Owned(c) then Some(t) else r.clock)
      case Touch(t) => if ClockOpen(r, t) then r.(clock := Some(t)) else r
      case Rollback(t, n, keeps) =>
        if n >= |r.open[t]| then r
        else r.(open := r.open[t := r.open[t][..n]], clock := if n == 0 && !keeps then Unlocked(r, t) else r.clock)
      case Commit(t) => Race(r.lines + r.open[t], r.open[t := []], Unlocked(r, t))
      case Abort(t) => Race(r.lines, r.open[t := []], Unlocked(r, t))
  }

  function Raced(c: OwnerColumns, target: Option<int>, r: Race, steps: seq<Step>): Race {
    if steps == [] then r else Next(c, target, Raced(c, target, r, steps[..|steps| - 1]), steps[|steps| - 1])
  }

  /** `n` transactions, none of which has inserted anything yet. */
  function Start(lines: seq<int>, n: nat): Race {
    Race(lines, seq(n, _ => []), None)
  }

  // ---- one transaction at a time inserts lines of a document ----

  /** Whoever has lines has the clock; a single transaction needs none. */
  ghost predicate Alone(c: OwnerColumns, r: Race) {
    forall t :: 0 <= t < |r.open| && r.open[t] != [] ==> |r.open| == 1 || (Owned(c) && r.clock == Some(t))
  }

  /** The document, with any first lines of a transaction, stays under the limit. */
  ghost predicate Under(r: Race, limit: int) {
    && Sum(r.lines) <= limit
    && forall t, n :: 0 <= t < |r.open| && 0 <= n <= |r.open[t]| ==> Sum(r.lines) + Sum(r.open[t][..n]) <= limit
  }

  lemma PrefixesOfOneMore(own: seq<int>, line: int, n: nat)
    requires n <= |own| + 1
    ensures Sum((own + [line])[..n]) == if n <= |own| then Sum(own[..n]) else Sum(own) + line
  {
    SumOfAppended(own, line);
    if n <= |own| {
      assert (own + [line])[..n] == own[..n];
    } else {
      assert (own + [line])[..n] == own + [line];
    }
  }

  lemma InsertStaysUnder(r: Race, t: nat, line: int, limit: int, clock: Option<nat>)
    requires Under(r, limit) && t < |r.open| && Sum(r.lines) + Sum(r.open[t]) + line <= limit
    ensures Under(r.(open := r.open[t := r.open[t] + [line]], clock := clock), limit)
  {
    forall n: nat | n <= |r.open[t]| + 1
      ensures Sum(r.lines) + Sum((r.open[t] + [line])[..n]) <= limit
    {
      PrefixesOfOneMore(r.open[t], line, n);
    }
  }

  lemma CommitStaysUnder(r: Race, t: nat, limit: int, clock: Option<nat>)
    requires Under(r, limit) && t < |r.open|
    requires r.open[t] != [] ==> forall u :: 0 <= u < |r.open| && u != t ==> r.open[u] == []
    ensures Under(Race(r.lines + r.open[t], r.open[t := []], clock), limit)
  {
    SumSplits(r.lines, r.open[t]);
    assert r.open[t][..|r.open[t]|] == r.open[t];
    assert Sum(r.lines) + Sum(r.open[t][..|r.open[t]|]) <= limit;
    if r.open[t] == [] {
      assert r.lines + r.open[t] == r.lines;
    } else {
      var open := r.open[t := []];
      assert forall u :: 0 <= u < |open| ==> open[u] == [];
      assert open[t][..0] == [];
    }
  }

  lemma RollbackStaysUnder(r: Race, t: nat, n: nat, limit: int, clock: Option<nat>)
    requires Under(r, limit) && t < |r.open| && n <= |r.open[t]|
    ensures Under(r.(open := r.open[t := r.open[t][..n]], clock := clock), limit)
  {
    assert forall m: nat :: m <= n ==> r.open[t][..n][..m] == r.open[t][..m];
  }

  lemma StepStaysUnder(c: OwnerColumns, target: Option<int>, r: Race, s: Step, limit: int)
    requires Guarded(Postgres, target) && target.value + TOLERANCE <= limit
    requires (Owned(c) || |r.open| == 1) && Alone(c, r) && Under(r, limit)
    ensures Alone(c, Next(c, target, r, s)) && Under(Next(c, target, r, s), limit) && |Next(c, target, r, s).open| == |r.open|
  {
    if s.t < |r.open| {
      match s
      case Insert(t, line) =>
        SumSplits(r.lines, r.open[t]);
        if Accepts(Postgres, target, Sum(r.lines + r.open[t]), line) {
          InsertStaysUnder(r, t, line, limit, if Owned(c) then Some(t) else r.clock);
        }
      case Touch(_) =>
      case Rollback(t, n, keeps) =>
        if n < |r.open[t]| {
          RollbackStaysUnder(r, t, n, limit, if n == 0 && !keeps then Unlocked(r, t) else r.clock);
        }
      case Commit(t) => CommitStaysUnder(r, t, limit, Unlocked(r, t));
      case Abort(t) =>
        RollbackStaysUnder(r, t, 0, limit, Unlocked(r, t));
        assert r.open[t][..0] == [];
    }
  }

  /** However many transactions insert, roll back, commit and abort, and whatever lines: a document with
      an owner never passes the bound, or what it held to begin with if that is more; nor does a
      document that a single transaction at a time works on. */
  lemma {:induction false} OwnedDocumentsStayUnder(c: OwnerColumns, target: Option<int>, lines: seq<int>, n: nat, steps: seq<Step>, limit: int)
    requires Guarded(Postgres, target) && (Owned(c) || n == 1)
    requires target.value + TOLERANCE <= limit && Sum(lines) <= limit
    ensures var r := Raced(c, target, Start(lines, n), steps); Alone(c, r) && Under(r, limit) && |r.open| == n
  {
    if steps != [] {
      OwnedDocumentsStayUnder(c, target, lines, n, steps[..|steps| - 1], limit);
      StepStaysUnder(c, target, Raced(c, target, Start(lines, n), steps[..|steps| - 1]), steps[|steps| - 1], limit);
    }
  }

  // ---- documents that nobody owns ----

  function Total(open: seq<seq<int>>): int {
    if open == [] then 0 else Total(open[..|open| - 1]) + Sum(open[|open| - 1])
  }

  lemma {:induction false} TotalWith(open: seq<seq<int>>, t: nat, own: seq<int>)
    requires t < |open|
    ensures Total(open[t := own]) == Total(open) - Sum(open[t]) + Sum(own)
  {
    var n := |open| - 1;
    if t < n {
      TotalWith(open[..n], t, own);
      assert open[t := own][..n] == open[..n][t := own];
    } else {
      assert open[t := own][..n] == open[..n];
    }
  }

  predicate NoneNegative(lines: seq<int>) {
    forall i :: 0 <= i < |lines| ==> lines[i] >= 0
  }

  ghost predicate EachWithin(open: seq<seq<int>>, room: int) {
    forall t :: 0 <= t < |open| ==> NoneNegative(open[t]) && 0 <= Sum(open[t]) <= room
  }

  lemma {:induction false} TotalOfEach(open: seq<seq<int>>, room: int)
    requires EachWithin(open, room)
    ensures 0 <= Total(open) <= |open| * room
  {
    if open != [] {
      var n := |open| - 1;
      assert open[n] == open[|open| - 1];
      assert EachWithin(open[..n], room) by {
        assert forall t :: 0 <= t < n ==> open[..n][t] == open[t];
      }
      TotalOfEach(open[..n], room);
      assert |open| * room == n * room + room;
    }
  }

  lemma {:induction false} TotalSplits(a: seq<seq<int>>, b: seq<seq<int>>)
    ensures Total(a + b) == Total(a) + Total(b)
  {
    if b == [] {
      assert a + b == a;
    } else {
      TotalSplits(a, b[..|b| - 1]);
      assert (a + b)[..|a + b| - 1] == a + b[..|b| - 1];
    }
  }

  /** No transaction has inserted more than there was room for, and all of them but one, that much
      at most past the bound. */
  ghost predicate WithinBound(r: Race, n: nat, start: int, bound: int) {
    && |r.open| == n && start <= Sum(r.lines) && EachWithin(r.open, bound - start)
    && Sum(r.lines) + Total(r.open) <= bound + (n - 1) * (bound - start)
  }

  lemma TotalWithout(open: seq<seq<int>>, t: nat)
    requires t < |open|
    ensures Total(open[t := []]) == Total(open[..t] + open[t + 1..])
  {
    var front, rest := open[..t], open[t + 1..];
    TotalSplits(front, rest);
    TotalSplits(front + [[]], rest);
    assert (front + [[]])[..t] == front;
    assert open[t := []] == front + [[]] + rest;
  }

  lemma OthersWithin(open: seq<seq<int>>, t: nat, room: int)
    requires t < |open| && EachWithin(open, room)
    ensures Total(open[t := []]) <= (|open| - 1) * room
  {
    var others := open[..t] + open[t + 1..];
    assert EachWithin(others, room) by {
      assert forall i :: 0 <= i < |others| ==> others[i] == open[if i < t then i else i + 1];
    }
    TotalWithout(open, t);
    TotalOfEach(others, room);
  }

  lemma InsertStaysWithin(r: Race, n: nat, start: int, bound: int, t: nat, line: int, clock: Option<nat>)
    requires WithinBound(r, n, start, bound) && t < n && line >= 0 && Sum(r.lines) + Sum(r.open[t]) + line <= bound
    ensures WithinBound(r.(open := r.open[t := r.open[t] + [line]], clock := clock), n, start, bound)
  {
    var own := r.open[t] + [line];
    SumOfAppended(r.open[t], line);
    TotalWith(r.open, t, own);
    TotalWith(r.open, t, []);
    OthersWithin(r.open, t, bound - start);
  }

  lemma CommitStaysWithin(r: Race, n: nat, start: int, bound: int, t: nat, clock: Option<nat>)
    requires WithinBound(r, n, start, bound) && t < n
    ensures WithinBound(Race(r.lines + r.open[t], r.open[t := []], clock), n, start, bound)
  {
    SumSplits(r.lines, r.open[t]);
    TotalWith(r.open, t, []);
  }

  lemma RollbackStaysWithin(r: Race, n: nat, start: int, bound: int, t: nat, m: nat, clock: Option<nat>)
    requires WithinBound(r, n, start, bound) && t < n && m <= |r.open[t]|
    ensures WithinBound(r.(open := r.open[t := r.open[t][..m]], clock := clock), n, start, bound)
  {
    PrefixesOfNonNegative(r.open[t], m);
    FirstsOfNonNegative(r.open[t], m);
    TotalWith(r.open, t, r.open[t][..m]);
  }

  lemma {:induction false} FirstsOfNonNegative(lines: seq<int>, m: nat)
    requires NoneNegative(lines) && m <= |lines|
    ensures Sum(lines[..m]) >= 0
  {
    if m > 0 {
      FirstsOfNonNegative(lines, m - 1);
      assert lines[..m][..m - 1] == lines[..m - 1];
    }
  }

  predicate NotNegative(s: Step) {
    s.Insert? ==> s.line >= 0
  }

  lemma StepStaysWithin(c: OwnerColumns, target: Option<int>, r: Race, s: Step, n: nat, start: int)
    requires Guarded(Postgres, target) && WithinBound(r, n, start, target.value + TOLERANCE) && NotNegative(s)
    ensures WithinBound(Next(c, target, r, s), n, start, target.value + TOLERANCE)
  {
    if s.t < n {
      var bound := target.value + TOLERANCE;
      match s
      case Insert(t, line) =>
        SumSplits(r.lines, r.open[t]);
        if Accepts(Postgres, target, Sum(r.lines + r.open[t]), line) {
          InsertStaysWithin(r, n, start, bound, t, line, if Owned(c) then Some(t) else r.clock);
        }
      case Touch(_) =>
      case Rollback(t, m, keeps) =>
        if m < |r.open[t]| {
          RollbackStaysWithin(r, n, start, bound, t, m, if m == 0 && !keeps then Unlocked(r, t) else r.clock);
        }
      case Commit(t) => CommitStaysWithin(r, n, start, bound, t, Unlocked(r, t));
      case Abort(t) =>
        RollbackStaysWithin(r, n, start, bound, t, 0, Unlocked(r, t));
        assert r.open[t][..0] == [];
    }
  }

  lemma {:induction false} NothingYet(n: nat)
    ensures Total(Start([], n).open) == 0
  {
    if n > 0 {
      NothingYet(n - 1);
      assert Start([], n).open[..n - 1] == Start([], n - 1).open;
    }
  }

  lemma {:induction false} RaceStaysWithin(c: OwnerColumns, target: Option<int>, lines: seq<int>, n: nat, steps: seq<Step>)
    requires n > 0 && Guarded(Postgres, target) && Sum(lines) <= target.value + TOLERANCE
    requires forall i :: 0 <= i < |steps| ==> NotNegative(steps[i])
    ensures WithinBound(Raced(c, target, Start(lines, n), steps), n, Sum(lines), target.value + TOLERANCE)
  {
    var bound := target.value + TOLERANCE;
    if steps == [] {
      NothingYet(n);
      assert Start(lines, n).open == Start([], n).open;
      assert 0 <= (n - 1) * (bound - Sum(lines));
    } else {
      RaceStaysWithin(c, target, lines, n, steps[..|steps| - 1]);
      StepStaysWithin(c, target, Raced(c, target, Start(lines, n), steps[..|steps| - 1]), steps[|steps| - 1], n, Sum(lines));
    }
  }

  /** Without an owner, `n` transactions side by side, inserting lines that are not negative, pass the
      bound by at most `n - 1` times the room there was. */
  lemma RacesOverfillByAtMost(c: OwnerColumns, target: Option<int>, lines: seq<int>, n: nat, steps: seq<Step>)
    requires n > 0 && Guarded(Postgres, target) && Sum(lines) <= target.value + TOLERANCE
    requires forall i :: 0 <= i < |steps| ==> NotNegative(steps[i])
    ensures var bound := target.value + TOLERANCE;
            Sum(Raced(c, target, Start(lines, n), steps).lines) <= bound + (n - 1) * (bound - Sum(lines))
  {
    RaceStaysWithin(c, target, lines, n, steps);
    TotalOfEach(Raced(c, target, Start(lines, n), steps).open, target.value + TOLERANCE - Sum(lines));
  }

  // ---- and they can ----

  /** Transactions from `from` to `to` have filled the document, and not ended. */
  function Filled(n: nat, from: nat, to: nat, room: int): seq<seq<int>> {
    seq(n, i => if from <= i < to then [room] else [])
  }

  /** The steps take the race from `r` to `r'` without a negative line. */
  ghost predicate Leads(c: OwnerColumns, target: Option<int>, r: Race, steps: seq<Step>, r': Race) {
    Raced(c, target, r, steps) == r' && forall i :: 0 <= i < |steps| ==> NotNegative(steps[i])
  }

  lemma LeadsOn(c: OwnerColumns, target: Option<int>, r: Race, steps: seq<Step>, r': Race, s: Step)
    requires Leads(c, target, r, steps, r') && NotNegative(s)
    ensures Leads(c, target, r, steps + [s], Next(c, target, r', s))
  {
    assert (steps + [s])[..|steps|] == steps;
  }

  lemma FillOne(c: OwnerColumns, target: Option<int>, lines: seq<int>, n: nat, k: nat, room: int)
    requires !Owned(c) && Guarded(Postgres, target) && room == target.value + TOLERANCE - Sum(lines) && k < n
    ensures Next(c, target, Race(lines, Filled(n, 0, k, room), None), Insert(k, room)) == Race(lines, Filled(n, 0, k + 1, room), None)
  {
    var open := Filled(n, 0, k, room);
    assert open[k] == [] && lines + [] == lines && [] + [room] == [room];
    assert open[k := [room]] == Filled(n, 0, k + 1, room);
  }

  lemma {:induction false} AllFill(c: OwnerColumns, target: Option<int>, lines: seq<int>, n: nat, k: nat, room: nat)
    returns (steps: seq<Step>)
    requires !Owned(c) && Guarded(Postgres, target) && room == target.value + TOLERANCE - Sum(lines) && k <= n
    ensures Leads(c, target, Start(lines, n), steps, Race(lines, Filled(n, 0, k, room), None))
  {
    if k == 0 {
      steps := [];
      assert Start(lines, n).open == Filled(n, 0, 0, room);
    } else {
      var before := AllFill(c, target, lines, n, k - 1, room);
      FillOne(c, target, lines, n, k - 1, room);
      LeadsOn(c, target, Start(lines, n), before, Race(lines, Filled(n, 0, k - 1, room), None), Insert(k - 1, room));
      steps := before + [Insert(k - 1, room)];
    }
  }

  function Times(k: nat, room: int): int {
    if k == 0 then 0 else Times(k - 1, room) + room
  }

  lemma {:induction false} TimesIsProduct(k: nat, room: int)
    requires k > 0
    ensures Times(k, room) == room + (k - 1) * room
  {
    if k > 1 {
      TimesIsProduct(k - 1, room);
      assert (k - 1) * room == (k - 2) * room + room;
    }
  }

  lemma CommitOne(c: OwnerColumns, target: Option<int>, r: Race, n: nat, k: nat, room: int) returns (r': Race)
    requires k < n && r.open == Filled(n, k, n, room)
    ensures r' == Next(c, target, r, Commit(k)) && Sum(r'.lines) == Sum(r.lines) + room && r'.open == Filled(n, k + 1, n, room)
  {
    r' := Race(r.lines + [room], r.open[k := []], Unlocked(r, k));
    assert r.open[k] == [room];
    SumOfAppended(r.lines, room);
    assert r.open[k := []] == Filled(n, k + 1, n, room);
  }

  lemma {:induction false} AllCommit(c: OwnerColumns, target: Option<int>, start: Race, steps: seq<Step>, r: Race, n: nat, k: nat, room: int)
    returns (steps': seq<Step>, r': Race)
    requires Leads(c, target, start, steps, r) && k <= n && r.open == Filled(n, k, n, room)
    ensures Leads(c, target, start, steps', r') && Sum(r'.lines) == Sum(r.lines) + Times(n - k, room)
    decreases n - k
  {
    if k == n {
      steps', r' := steps, r;
    } else {
      var next := CommitOne(c, target, r, n, k, room);
      LeadsOn(c, target, start, steps, r, Commit(k));
      steps', r' := AllCommit(c, target, start, steps + [Commit(k)], next, n, k + 1, room);
    }
  }

  /** That much is reached, when each of them fills the document before any commits. */
  lemma RacesDoOverfill(c: OwnerColumns, target: Option<int>, lines: seq<int>, n: nat) returns (steps: seq<Step>)
    requires !Owned(c) && n > 0 && Guarded(Postgres, target) && Sum(lines) <= target.value + TOLERANCE
    ensures forall i :: 0 <= i < |steps| ==> NotNegative(steps[i])
    ensures var bound := target.value + TOLERANCE;
            Sum(Raced(c, target, Start(lines, n), steps).lines) == bound + (n - 1) * (bound - Sum(lines))
  {
    var room := target.value + TOLERANCE - Sum(lines);
    var fill := AllFill(c, target, lines, n, n, room);
    var r := Race(lines, Filled(n, 0, n, room), None);
    var r';
    steps, r' := AllCommit(c, target, Start(lines, n), fill, r, n, 0, room);
    TimesIsProduct(n, room);
  }

  // ---- exactly which documents never pass the bound ----

  ghost predicate NeverPasses(c: OwnerColumns, target: Option<int>, lines: seq<int>, n: nat)
    requires target.Some?
  {
    forall steps :: Sum(Raced(c, target, Start(lines, n), steps).lines) <= target.value + TOLERANCE
  }

  lemma RacedTwice(c: OwnerColumns, target: Option<int>, r: Race, s: Step, s': Step)
    ensures Raced(c, target, r, [s, s']) == Next(c, target, Next(c, target, r, s), s')
  {
    assert [s, s'][..1] == [s] && [s][..0] == [];
    assert Raced(c, target, r, [s]) == Next(c, target, r, s);
  }

  lemma InsertAndCommit(c: OwnerColumns, target: Option<int>, lines: seq<int>, n: nat, line: int)
    requires !Owned(c) && n > 0 && Guarded(Postgres, target) && Sum(lines) + line <= target.value + TOLERANCE
    ensures Next(c, target, Next(c, target, Start(lines, n), Insert(0, line)), Commit(0)) == Start(lines + [line], n)
  {
    var open := Start(lines, n).open;
    assert open[0] == [] && lines + [] == lines && [] + [line] == [line];
    assert open[0 := [line]][0 := []] == open;
  }

  /** Leaves room for one paisa. */
  lemma LeaveOne(c: OwnerColumns, target: Option<int>, lines: seq<int>, n: nat) returns (steps: seq<Step>, less: seq<int>)
    requires !Owned(c) && n > 0 && Guarded(Postgres, target)
    ensures Raced(c, target, Start(lines, n), steps) == Start(less, n) && Sum(less) == target.value + TOLERANCE - 1
  {
    var line := target.value + TOLERANCE - 1 - Sum(lines);
    steps, less := [Insert(0, line), Commit(0)], lines + [line];
    SumOfAppended(lines, line);
    InsertAndCommit(c, target, lines, n, line);
    RacedTwice(c, target, Start(lines, n), Insert(0, line), Commit(0));
  }

  lemma LastStep(c: OwnerColumns, target: Option<int>, r: Race, all: seq<Step>, steps: seq<Step>, s: Step)
    requires all == steps + [s]
    ensures Raced(c, target, r, all) == Next(c, target, Raced(c, target, r, steps), s)
  {
    assert all[..|all| - 1] == steps && all[|all| - 1] == s;
  }

  lemma {:induction false} RacedOn(c: OwnerColumns, target: Option<int>, r: Race, all: seq<Step>, first: seq<Step>, more: seq<Step>)
    requires all == first + more
    ensures Raced(c, target, r, all) == Raced(c, target, Raced(c, target, r, first), more)
    decreases |more|
  {
    if more == [] {
      assert all == first;
    } else {
      var n := |more| - 1;
      RacedOn(c, target, r, all[..|all| - 1], first, more[..n]);
      LastStep(c, target, r, all, all[..|all| - 1], more[n]);
      LastStep(c, target, Raced(c, target, r, first), more, more[..n], more[n]);
    }
  }

  lemma TwoCanPass(c: OwnerColumns, target: Option<int>, lines: seq<int>, n: nat)
    requires !Owned(c) && n > 1 && Guarded(Postgres, target)
    ensures !NeverPasses(c, target, lines, n)
  {
    var bound := target.value + TOLERANCE;
    var first, less := LeaveOne(c, target, lines, n);
    var more := RacesDoOverfill(c, target, less, n);
    RacedOn(c, target, Start(lines, n), first + more, first, more);
    assert Sum(Raced(c, target, Start(lines, n), first + more).lines) == bound + (n - 1) * 1;
  }

  /** With up to `n` transactions at a time, inserting any lines, rolling back, committing and aborting as
      they like: a guarded document that is not overfilled never passes the bound if and only if it has
      an owner, or there is but one transaction at a time. */
  lemma NeverPassesIff(c: OwnerColumns, target: Option<int>, lines: seq<int>, n: nat)
    requires n > 0 && Guarded(Postgres, target) && Sum(lines) <= target.value + TOLERANCE
    ensures NeverPasses(c, target, lines, n) <==> Owners(c) != {} || n == 1
  {
    SeedingReachesTheTriggersOwners(c);
    OwnedIff(c);
    if Owned(c) || n == 1 {
      forall steps
        ensures Sum(Raced(c, target, Start(lines, n), steps).lines) <= target.value + TOLERANCE
      {
        OwnedDocumentsStayUnder(c, target, lines, n, steps, target.value + TOLERANCE);
      }
    } else {
      TwoCanPass(c, target, lines, n);
    }
  }

  lemma OwnedIff(c: OwnerColumns)
    ensures Owned(c) <==> Owners(c) != {}
  {
    match c
    case Sole(b) => assert b.Some? ==> b.value in Owners(c);
    case TwoSided(s, b) =>
      assert s.Some? ==> s.value in Owners(c);
      assert b.Some? ==> b.value in Owners(c);
    case ViaOrder(s, b) =>
      assert s.Some? ==> s.value in Owners(c);
      assert b.Some? ==> b.value in Owners(c);
  }

  // ---- taking turns ----

  function Inserts(t: nat, batch: seq<int>): seq<Step> {
    if batch == [] then [] else Inserts(t, batch[..|batch| - 1]) + [Insert(t, batch[|batch| - 1])]
  }

  /** One after the other the transactions insert their lines and commit. */
  function InTurn(ts: seq<nat>, batches: seq<seq<int>>): seq<Step>
    requires |ts| == |batches|
  {
    if ts == [] then []
    else
      var n := |ts| - 1;
      InTurn(ts[..n], batches[..n]) + Inserts(ts[n], batches[n]) + [Commit(ts[n])]
  }

  /** The document after the batches, one after the other. */
  function Serial(target: Option<int>, lines: seq<int>, batches: seq<seq<int>>): seq<int> {
    if batches == [] then lines
    else InsertAll(Postgres, target, Serial(target, lines, batches[..|batches| - 1]), batches[|batches| - 1])
  }

  /** A transaction on its own, with some lines inserted. */
  function Inside(c: OwnerColumns, lines: seq<int>, n: nat, t: nat, taken: seq<int>): Race
    requires t < n
  {
    Race(lines, Start(lines, n).open[t := taken], if Owned(c) && taken != [] then Some(t) else None)
  }

  lemma InsertInside(c: OwnerColumns, target: Option<int>, lines: seq<int>, n: nat, t: nat, taken: seq<int>, line: int)
    requires t < n
    ensures Next(c, target, Inside(c, lines, n, t, taken), Insert(t, line)) ==
            Inside(c, lines, n, t, if Accepts(Postgres, target, Sum(lines + taken), line) then taken + [line] else taken)
  {
    var open := Start(lines, n).open;
    assert open[t := taken][t := taken + [line]] == open[t := taken + [line]];
  }

  lemma SeriesGoesOn(target: Option<int>, lines: seq<int>, taken: seq<int>, batch: seq<int>)
    requires batch != [] && lines + taken == InsertAll(Postgres, target, lines, batch[..|batch| - 1])
    ensures var line := batch[|batch| - 1];
            InsertAll(Postgres, target, lines, batch) ==
            lines + if Accepts(Postgres, target, Sum(lines + taken), line) then taken + [line] else taken
  {
    assert lines + (taken + [batch[|batch| - 1]]) == lines + taken + [batch[|batch| - 1]];
  }

  lemma {:induction false} InsertsInside(c: OwnerColumns, target: Option<int>, lines: seq<int>, n: nat, t: nat, batch: seq<int>)
    returns (taken: seq<int>)
    requires t < n
    ensures lines + taken == InsertAll(Postgres, target, lines, batch)
    ensures Raced(c, target, Start(lines, n), Inserts(t, batch)) == Inside(c, lines, n, t, taken)
  {
    if batch == [] {
      taken := [];
      assert Start(lines, n).open[t := []] == Start(lines, n).open && lines + [] == lines;
    } else {
      var front, line := batch[..|batch| - 1], batch[|batch| - 1];
      var before := InsertsInside(c, target, lines, n, t, front);
      LastStep(c, target, Start(lines, n), Inserts(t, batch), Inserts(t, front), Insert(t, line));
      InsertInside(c, target, lines, n, t, before, line);
      SeriesGoesOn(target, lines, before, batch);
      taken := if Accepts(Postgres, target, Sum(lines + before), line) then before + [line] else before;
    }
  }

  lemma CommitInside(c: OwnerColumns, target: Option<int>, lines: seq<int>, n: nat, t: nat, taken: seq<int>)
    requires t < n
    ensures Next(c, target, Inside(c, lines, n, t, taken), Commit(t)) == Start(lines + taken, n)
    ensures Next(c, target, Inside(c, lines, n, t, taken), Abort(t)) == Start(lines, n)
    ensures taken != [] ==> Next(c, target, Inside(c, lines, n, t, taken), Rollback(t, 0, false)) == Start(lines, n)
  {
    var open := Start(lines, n).open;
    assert open[t := taken][t := []] == open && taken[..0] == [];
  }

  /** Transactions that take turns never stand in each other's way: they leave what the same inserts leave one
      after the other, and no lock. */
  lemma {:induction false} TurnsAreSerial(c: OwnerColumns, target: Option<int>, lines: seq<int>, n: nat, ts: seq<nat>,
                                          batches: seq<seq<int>>)
    requires |ts| == |batches| && forall k :: 0 <= k < |ts| ==> ts[k] < n
    ensures Raced(c, target, Start(lines, n), InTurn(ts, batches)) == Start(Serial(target, lines, batches), n)
  {
    if ts != [] {
      var k := |ts| - 1;
      TurnsAreSerial(c, target, lines, n, ts[..k], batches[..k]);
      OneMoreTurn(c, target, Start(lines, n), Serial(target, lines, batches[..k]), n, InTurn(ts[..k], batches[..k]), ts[k], batches[k]);
    }
  }

  lemma OneMoreTurn(c: OwnerColumns, target: Option<int>, r: Race, lines: seq<int>, n: nat, steps: seq<Step>, t: nat, batch: seq<int>)
    requires t < n && Raced(c, target, r, steps) == Start(lines, n)
    ensures Raced(c, target, r, steps + Inserts(t, batch) + [Commit(t)]) == Start(InsertAll(Postgres, target, lines, batch), n)
  {
    var taken := InsertsInside(c, target, lines, n, t, batch);
    RacedOn(c, target, r, steps + Inserts(t, batch), steps, Inserts(t, batch));
    LastStep(c, target, r, steps + Inserts(t, batch) + [Commit(t)], steps + Inserts(t, batch), Commit(t));
    CommitInside(c, target, lines, n, t, taken);
  }

  /** A transaction that is aborted, or rolled back to before its first insert, leaves no line and no lock. */
  lemma UndoneLeavesNothing(c: OwnerColumns, target: Option<int>, lines: seq<int>, n: nat, t: nat, batch: seq<int>)
    requires t < n
    ensures var r := Raced(c, target, Start(lines, n), Inserts(t, batch));
            && Next(c, target, r, Abort(t)) == Start(lines, n)
            && (r.open[t] != [] ==> Next(c, target, r, Rollback(t, 0, false)) == Start(lines, n))
  {
    var taken := InsertsInside(c, target, lines, n, t, batch);
    CommitInside(c, target, lines, n, t, taken);
  }
}
