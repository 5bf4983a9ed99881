/** Slowing down password guessing: when forgetting old failures is safe, and what the limit of ten
    failures is worth when attempts overlap. */
module Throttle {

  /** Fifteen minutes, in seconds. */
  const WINDOW := 900
  const MAX_FAILURES := 10

  /** The failures that are still within the window. */
  function Recent(times: seq<int>, now: int): seq<int> {
    if times == [] then []
    else Recent(times[..|times| - 1], now) + if now - times[|times| - 1] < WINDOW then [times[|times| - 1]] else []
  }

  // ---- the history of one key ----

  /** An attempt is checked; if let through it fails, succeeds and clears the list, or is dropped
      without either, as for a disabled account. */
  datatype Event = Check(now: int) | Failure(now: int) | Clear(now: int) | Drop(now: int)

  /** The list kept: every check drops what is too old. */
  function AfterEvent(times: seq<int>, e: Event): seq<int> {
    match e
    case Check(now) => Recent(times, now)
    case Failure(now) => times + [now]
    case Clear(_) => []
    case Drop(_) => times
  }

  function Kept(es: seq<Event>): seq<int> {
    if es == [] then [] else AfterEvent(Kept(es[..|es| - 1]), es[|es| - 1])
  }

  predicate Admits(es: seq<Event>, now: int) {
    |Recent(Kept(es), now)| < MAX_FAILURES
  }

  /** Every failure since the last clear. */
  function Failures(es: seq<Event>): seq<int> {
    if es == [] then []
    else
      var before := Failures(es[..|es| - 1]);
      match es[|es| - 1]
      case Failure(now) => before + [now]
      case Clear(_) => []
      case _ => before
  }

  class LoginThrottle {
    var attempts: map<string, seq<int>>
    ghost var history: map<string, seq<Event>>

    function Of(key: string): seq<int>
      reads this
    {
      if key in attempts then attempts[key] else []
    }

    ghost function HistoryOf(key: string): seq<Event>
      reads this
    {
      if key in history then history[key] else []
    }

    /** The table holds what is kept of the history of each key. */
    ghost predicate Valid()
      reads this
    {
      forall key :: Of(key) == Kept(HistoryOf(key))
    }

    constructor ()
      ensures Valid() && attempts == map[] && history == map[]
    {
      attempts, history := map[], map[];
    }

    ghost method Note(key: string, e: Event)
      requires Of(key) == AfterEvent(Kept(HistoryOf(key)), e)
      requires forall k :: k != key ==> Of(k) == Kept(HistoryOf(k))
      modifies this`history
      ensures Valid() && history == old(history)[key := old(HistoryOf(key)) + [e]]
    {
      var before := HistoryOf(key);
      history := history[key := before + [e]];
      assert (before + [e])[..|before|] == before;
      assert forall k :: k != key ==> HistoryOf(k) == old(HistoryOf(k));
    }

    /** Lets the attempt through unless the last fifteen minutes are full of failures. */
    method Check(key: string, now: int) returns (admitted: bool)
      requires Valid()
      modifies this
      ensures Valid() && history == old(history)[key := old(HistoryOf(key)) + [Event.Check(now)]]
      ensures attempts == old(attempts)[key := Recent(old(Of(key)), now)]
      ensures admitted <==> Admits(old(HistoryOf(key)), now)
    {
      var times := Of(key);
      var hits: seq<int> := [];
      for i := 0 to |times|
        invariant hits == Recent(times[..i], now) && attempts == old(attempts) && history == old(history)
      {
        assert times[..i + 1][..i] == times[..i];
        if now - times[i] < WINDOW {
          hits := hits + [times[i]];
        }
      }
      assert times[..|times|] == times;
      attempts := attempts[key := hits];
      assert forall k :: k != key ==> Of(k) == old(Of(k));
      Note(key, Event.Check(now));
      return |hits| < MAX_FAILURES;
    }

    method RecordFailure(key: string, now: int)
      requires Valid()
      modifies this
      ensures Valid() && history == old(history)[key := old(HistoryOf(key)) + [Failure(now)]]
      ensures attempts == old(attempts)[key := old(Of(key)) + [now]]
    {
      attempts := attempts[key := Of(key) + [now]];
      assert forall k :: k != key ==> Of(k) == old(Of(k));
      Note(key, Failure(now));
    }

    method ClearFailures(key: string, ghost now: int)
      requires Valid()
      modifies this
      ensures Valid() && history == old(history)[key := old(HistoryOf(key)) + [Clear(now)]]
      ensures attempts == old(attempts) - {key}
    {
      attempts := attempts - {key};
      assert forall k :: k != key ==> Of(k) == old(Of(k));
      Note(key, Clear(now));
    }
  }

  lemma RecentAppended(times: seq<int>, t: int, now: int)
    ensures Recent(times + [t], now) == Recent(times, now) + if now - t < WINDOW then [t] else []
  {
    assert (times + [t])[..|times|] == times;
  }

  // ---- when pruning is safe ----

  /** Dropping what is too old at one time makes no difference at another at which it is too old as
      well. */
  lemma {:induction false} RecentTwice(times: seq<int>, now: int, later: int)
    requires forall i :: 0 <= i < |times| && now - times[i] >= WINDOW ==> later - times[i] >= WINDOW
    ensures Recent(Recent(times, now), later) == Recent(times, later)
  {
    if times != [] {
      var front, t := times[..|times| - 1], times[|times| - 1];
      RecentTwice(front, now, later);
      if now - t < WINDOW {
        RecentAppended(Recent(front, now), t, later);
      } else {
        assert Recent(front, now) + [] == Recent(front, now);
        assert Recent(front, later) + [] == Recent(front, later);
      }
    }
  }

  lemma {:induction false} RecentAreOf(times: seq<int>, now: int, x: int)
    requires x in Recent(times, now)
    ensures x in times
  {
    if x != times[|times| - 1] {
      RecentAreOf(times[..|times| - 1], now, x);
    }
  }

  lemma {:induction false} KeptAreOf(es: seq<Event>, x: int)
    requires x in Kept(es)
    ensures exists i :: 0 <= i < |es| && es[i].now == x
  {
    var front, e := es[..|es| - 1], es[|es| - 1];
    if e.Check? {
      RecentAreOf(Kept(front), e.now, x);
    }
    if x in Kept(front) {
      KeptAreOf(front, x);
      var i :| 0 <= i < |front| && front[i].now == x;
      assert es[i].now == x;
    } else {
      assert e.now == x;
    }
  }

  /** What was too old at one of the events still is. */
  ghost predicate StillOld(es: seq<Event>, now: int) {
    forall i, j :: 0 <= i < j < |es| && es[j].now - es[i].now >= WINDOW ==> now - es[i].now >= WINDOW
  }

  ghost predicate DecideAlike(es: seq<Event>, now: int) {
    Recent(Kept(es), now) == Recent(Failures(es), now)
  }

  lemma {:induction false} StillOldDecidesAlike(es: seq<Event>, now: int)
    requires StillOld(es, now)
    ensures DecideAlike(es, now)
  {
    if es != [] {
      var front, e := es[..|es| - 1], es[|es| - 1];
      StillOldDecidesAlike(front, now);
      match e
      case Check(t) =>
        forall i | 0 <= i < |Kept(front)| && t - Kept(front)[i] >= WINDOW
          ensures now - Kept(front)[i] >= WINDOW
        {
          KeptAreOf(front, Kept(front)[i]);
          var l :| 0 <= l < |front| && front[l].now == Kept(front)[i];
          assert es[l].now == Kept(front)[i];
        }
        RecentTwice(Kept(front), t, now);
      case Failure(t) =>
        RecentAppended(Kept(front), t, now);
        RecentAppended(Failures(front), t, now);
      case _ =>
    }
  }

  ghost predicate Forward(es: seq<Event>) {
    forall i, j :: 0 <= i < j < |es| ==> es[i].now <= es[j].now
  }

  /** With a clock that only goes forward, the pruned list decides as the whole history would. */
  lemma PruningDecidesAlike(es: seq<Event>, now: int)
    requires forall i :: 0 <= i < |es| ==> es[i].now <= now
    ensures DecideAlike(es, now)
  {
    StillOldDecidesAlike(es, now);
  }

  /** At every one of these times, whatever the events at those before it. */
  ghost predicate AlwaysDecidesAlike(times: seq<int>) {
    forall es: seq<Event> :: |es| < |times| && (forall i :: 0 <= i < |es| ==> es[i].now == times[i]) ==>
      DecideAlike(es, times[|es|])
  }

  /** The clock never comes back into the window of an event that it had left. */
  ghost predicate NeverReturns(times: seq<int>) {
    forall i, j, k :: 0 <= i < j < k < |times| && times[j] - times[i] >= WINDOW ==> times[k] - times[i] >= WINDOW
  }

  /** One failure among checks. */
  function OneFailure(times: seq<int>, i: nat, n: nat): seq<Event>
    requires n <= |times|
  {
    seq(n, l requires 0 <= l < n => if l == i then Failure(times[l]) else Check(times[l]))
  }

  lemma OneFailureNext(times: seq<int>, i: nat, n: nat)
    requires n < |times|
    ensures n == i ==> Kept(OneFailure(times, i, n + 1)) == Kept(OneFailure(times, i, n)) + [times[n]]
    ensures n != i ==> Kept(OneFailure(times, i, n + 1)) == Recent(Kept(OneFailure(times, i, n)), times[n])
  {
    var es := OneFailure(times, i, n + 1);
    assert es[..n] == OneFailure(times, i, n);
  }

  lemma OneFailureRecorded(times: seq<int>, i: nat, n: nat)
    requires n < |times|
    ensures n == i ==> Failures(OneFailure(times, i, n + 1)) == Failures(OneFailure(times, i, n)) + [times[n]]
    ensures n != i ==> Failures(OneFailure(times, i, n + 1)) == Failures(OneFailure(times, i, n))
  {
    var es := OneFailure(times, i, n + 1);
    assert es[..n] == OneFailure(times, i, n);
  }

  lemma RecentOfOne(t: int, now: int)
    ensures Recent([t], now) == if now - t < WINDOW then [t] else []
  {
    assert [] + [t] == [t];
    RecentAppended([], t, now);
  }

  lemma {:induction false} FailureIsOnRecord(times: seq<int>, i: nat, n: nat)
    requires n <= |times|
    ensures Failures(OneFailure(times, i, n)) == if n > i then [times[i]] else []
  {
    if n > 0 {
      FailureIsOnRecord(times, i, n - 1);
      OneFailureRecorded(times, i, n - 1);
    }
  }

  predicate AtMost(kept: seq<int>, t: int) {
    kept == [] || kept == [t]
  }

  lemma ForgottenAt(kept: seq<int>, t: int, now: int)
    requires AtMost(kept, t)
    ensures AtMost(Recent(kept, now), t) && (kept == [] || now - t >= WINDOW ==> Recent(kept, now) == [])
  {
    RecentOfOne(t, now);
  }

  lemma {:induction false} KeptAtMost(times: seq<int>, i: nat, n: nat)
    requires i < |times| && n <= |times|
    ensures AtMost(Kept(OneFailure(times, i, n)), times[i]) && (n <= i ==> Kept(OneFailure(times, i, n)) == [])
  {
    if n > 0 {
      KeptAtMost(times, i, n - 1);
      OneFailureNext(times, i, n - 1);
      ForgottenAt(Kept(OneFailure(times, i, n - 1)), times[i], times[n - 1]);
    }
  }

  /** It is kept at most until it is too old at one of the checks. */
  lemma {:induction false} FailureIsForgotten(times: seq<int>, i: nat, j: nat, n: nat)
    requires i < j < n <= |times| && times[j] - times[i] >= WINDOW
    ensures Kept(OneFailure(times, i, n)) == []
  {
    KeptAtMost(times, i, n - 1);
    OneFailureNext(times, i, n - 1);
    if j < n - 1 {
      FailureIsForgotten(times, i, j, n - 1);
    }
    ForgottenAt(Kept(OneFailure(times, i, n - 1)), times[i], times[n - 1]);
  }

  lemma ReturningForgets(times: seq<int>, i: nat, j: nat, k: nat) returns (es: seq<Event>)
    requires i < j < k < |times| && times[j] - times[i] >= WINDOW && times[k] - times[i] < WINDOW
    ensures |es| == k && (forall n :: 0 <= n < k ==> es[n].now == times[n]) && !DecideAlike(es, times[k])
  {
    es := OneFailure(times, i, k);
    FailureIsOnRecord(times, i, k);
    FailureIsForgotten(times, i, j, k);
    RecentOfOne(times[i], times[k]);
  }

  lemma NeverReturningDecidesAlike(times: seq<int>)
    requires NeverReturns(times)
    ensures AlwaysDecidesAlike(times)
  {
    forall es: seq<Event> | |es| < |times| && forall i :: 0 <= i < |es| ==> es[i].now == times[i]
      ensures DecideAlike(es, times[|es|])
    {
      StillOldDecidesAlike(es, times[|es|]);
    }
  }

  /** The pruned list decides as the whole history would, whatever happened at the given times, if and
      only if the clock never comes back into the window of an event that it had left. */
  lemma PruningIsSafeIff(times: seq<int>)
    ensures AlwaysDecidesAlike(times) <==> NeverReturns(times)
  {
    if NeverReturns(times) {
      NeverReturningDecidesAlike(times);
    } else {
      var i, j, k :| 0 <= i < j < k < |times| && times[j] - times[i] >= WINDOW && times[k] - times[i] < WINDOW;
      var es := ReturningForgets(times, i, j, k);
    }
  }

  // ---- how fast an account can be tried ----

  /** The attempts let through that have not ended. */
  function Outstanding(es: seq<Event>): int {
    if es == [] then 0
    else
      var front, e := es[..|es| - 1], es[|es| - 1];
      if !e.Check? then Outstanding(front) - 1
      else if Admits(front, e.now) then Outstanding(front) + 1
      else Outstanding(front)
  }

  /** Only attempts that were let through end, and never more than `m` are outstanding. */
  ghost predicate Overlapping(es: seq<Event>, m: nat) {
    es == [] ||
      (var front := es[..|es| - 1];
       Overlapping(front, m) && (es[|es| - 1].Check? || Outstanding(front) > 0) && Outstanding(es) <= m)
  }

  /** The last failures are all recent when the oldest of them is. */
  lemma {:induction false} RecentTail(times: seq<int>, from: nat, now: int)
    requires from <= |times| && forall i :: from <= i < |times| ==> now - times[i] < WINDOW
    ensures |Recent(times, now)| >= |times| - from
  {
    if from < |times| {
      RecentTail(times[..|times| - 1], from, now);
    }
  }

  lemma {:induction false} FailuresArePast(es: seq<Event>, now: int)
    requires forall i :: 0 <= i < |es| ==> es[i].now <= now
    ensures forall i :: 0 <= i < |Failures(es)| ==> Failures(es)[i] <= now
  {
    if es != [] {
      FailuresArePast(es[..|es| - 1], now);
    }
  }

  lemma {:induction false} FailuresAreForward(es: seq<Event>)
    requires Forward(es)
    ensures forall i, j :: 0 <= i < j < |Failures(es)| ==> Failures(es)[i] <= Failures(es)[j]
  {
    if es != [] {
      FailuresAreForward(es[..|es| - 1]);
      FailuresArePast(es[..|es| - 1], es[|es| - 1].now);
    }
  }

  /** An attempt is let through only when the tenth last failure, and all before it, are old. */
  lemma AdmittedAttempt(before: seq<Event>, check: int, k: nat)
    requires Forward(before) && forall i :: 0 <= i < |before| ==> before[i].now <= check
    requires Admits(before, check) && k + MAX_FAILURES <= |Failures(before)|
    ensures check - Failures(before)[k] >= WINDOW
  {
    var times := Failures(before);
    PruningDecidesAlike(before, check);
    FailuresAreForward(before);
    if check - times[k] < WINDOW {
      RecentTail(times, k, check);
    }
  }

  /** Ten failures after any failure, either the window has passed, or the failures since and those
      still to come are fewer than the overlapping attempts. */
  lemma {:induction false} FailuresSince(es: seq<Event>, m: nat, k: nat)
    requires Forward(es) && Overlapping(es, m) && k + MAX_FAILURES <= |Failures(es)|
    ensures es[|es| - 1].now - Failures(es)[k] >= WINDOW || |Failures(es)| - (k + MAX_FAILURES) + Outstanding(es) < m
  {
    var front, e := es[..|es| - 1], es[|es| - 1];
    if k + MAX_FAILURES <= |Failures(front)| {
      FailuresSince(front, m, k);
      assert front[|front| - 1].now <= e.now;
      if e.Check? && Admits(front, e.now) {
        AdmittedAttempt(front, e.now, k);
      }
    }
  }

  lemma {:induction false} NoneFailsAlone(es: seq<Event>)
    requires Overlapping(es, 0)
    ensures Outstanding(es) == 0 && Failures(es) == []
  {
    if es != [] {
      NoneFailsAlone(es[..|es| - 1]);
    }
  }

  /** With at most `m` attempts overlapping, any `10 + m` failures in a row span fifteen minutes. */
  lemma {:induction false} FailuresTakeTime(es: seq<Event>, m: nat, k: nat)
    requires Forward(es) && Overlapping(es, m) && k + MAX_FAILURES + m <= |Failures(es)|
    ensures Failures(es)[k + MAX_FAILURES + m - 1] - Failures(es)[k] >= WINDOW
  {
    if m == 0 {
      NoneFailsAlone(es);
    } else {
      var front, e := es[..|es| - 1], es[|es| - 1];
      if k + MAX_FAILURES + m <= |Failures(front)| {
        FailuresTakeTime(front, m, k);
      } else {
        FailuresSince(front, m, k);
        assert front[|front| - 1].now <= e.now;
      }
    }
  }

  // ---- and how many failures can coincide ----

  function Zeros(n: nat): seq<int> {
    seq(n, _ => 0)
  }

  lemma {:induction false} ZerosAreRecent(n: nat)
    ensures Recent(Zeros(n), 0) == Zeros(n)
  {
    if n > 0 {
      ZerosAreRecent(n - 1);
      assert Zeros(n)[..n - 1] == Zeros(n - 1) && Zeros(n) == Zeros(n - 1) + [0];
    }
  }

  /** All at time zero: `n` failures noted, and `out` attempts still under way. */
  ghost predicate AtOnce(es: seq<Event>, m: nat, n: nat, out: nat) {
    && (forall i :: 0 <= i < |es| ==> es[i].now == 0)
    && Kept(es) == Failures(es) == Zeros(n) && Outstanding(es) == out && Overlapping(es, m)
  }

  lemma OneMoreCheck(es: seq<Event>, m: nat, n: nat, out: nat)
    requires AtOnce(es, m, n, out) && n < MAX_FAILURES && out < m
    ensures AtOnce(es + [Check(0)], m, n, out + 1)
  {
    ZerosAreRecent(n);
    assert (es + [Check(0)])[..|es|] == es;
  }

  lemma OneMoreFailure(es: seq<Event>, m: nat, n: nat, out: nat)
    requires AtOnce(es, m, n, out) && out > 0
    ensures AtOnce(es + [Failure(0)], m, n + 1, out - 1)
  {
    assert (es + [Failure(0)])[..|es|] == es;
    assert Zeros(n) + [0] == Zeros(n + 1);
  }

  /** One attempt after the other, all of which fail. */
  lemma {:induction false} OneByOne(m: nat, n: nat) returns (es: seq<Event>)
    requires m > 0 && n < MAX_FAILURES
    ensures AtOnce(es, m, n, 0)
  {
    if n == 0 {
      es := [];
    } else {
      var before := OneByOne(m, n - 1);
      OneMoreCheck(before, m, n - 1, 0);
      OneMoreFailure(before + [Check(0)], m, n - 1, 1);
      es := before + [Check(0)] + [Failure(0)];
    }
  }

  lemma {:induction false} ManyChecks(es: seq<Event>, m: nat, n: nat, out: nat) returns (es': seq<Event>)
    requires AtOnce(es, m, n, out) && n < MAX_FAILURES && out <= m
    ensures AtOnce(es', m, n, m)
    decreases m - out
  {
    if out == m {
      es' := es;
    } else {
      OneMoreCheck(es, m, n, out);
      es' := ManyChecks(es + [Check(0)], m, n, out + 1);
    }
  }

  lemma {:induction false} ManyFailures(es: seq<Event>, m: nat, n: nat, out: nat) returns (es': seq<Event>)
    requires AtOnce(es, m, n, out)
    ensures AtOnce(es', m, n + out, 0)
    decreases out
  {
    if out == 0 {
      es' := es;
    } else {
      OneMoreFailure(es, m, n, out);
      es' := ManyFailures(es + [Failure(0)], m, n + 1, out - 1);
    }
  }

  /** With `m` attempts overlapping, `9 + m` can fail at once. */
  lemma OverlappingAttemptsEscape(m: nat) returns (es: seq<Event>)
    requires m > 0
    ensures Forward(es) && Overlapping(es, m) && Failures(es) == Zeros(MAX_FAILURES - 1 + m)
  {
    var nine := OneByOne(m, MAX_FAILURES - 1);
    var all := ManyChecks(nine, m, MAX_FAILURES - 1, 0);
    es := ManyFailures(all, m, MAX_FAILURES - 1, m);
  }

  /** However attempts overlap, up to `m` at a time: any `n` failures in a row span fifteen minutes. */
  ghost predicate AlwaysSpan(n: nat, m: nat) {
    forall es: seq<Event>, k: nat :: Forward(es) && Overlapping(es, m) && k + n <= |Failures(es)| ==> Spans(es, n, k)
  }

  ghost predicate Spans(es: seq<Event>, n: nat, k: nat) {
    0 < n && k + n <= |Failures(es)| && Failures(es)[k + n - 1] - Failures(es)[k] >= WINDOW
  }

  /** That is so exactly from ten failures more than attempts can overlap. */
  lemma FailuresSpanIff(n: nat, m: nat)
    requires n > 0 && m > 0
    ensures AlwaysSpan(n, m) <==> n >= MAX_FAILURES + m
  {
    if n >= MAX_FAILURES + m {
      forall es: seq<Event>, k: nat | Forward(es) && Overlapping(es, m) && k + n <= |Failures(es)|
        ensures Spans(es, n, k)
      {
        FailuresTakeTime(es, m, k);
        FailuresAreForward(es);
        var times := Failures(es);
        assert k + MAX_FAILURES + m - 1 < k + n - 1 ==> times[k + MAX_FAILURES + m - 1] <= times[k + n - 1];
      }
    } else {
      var es := OverlappingAttemptsEscape(m);
      assert !Spans(es, n, 0);
    }
  }

  /** So eleven failures in a row always span fifteen minutes if and only if attempts do not overlap. */
  lemma ElevenFailuresIff(m: nat)
    requires m > 0
    ensures AlwaysSpan(MAX_FAILURES + 1, m) <==> m == 1
  {
    FailuresSpanIff(MAX_FAILURES + 1, m);
  }
}
