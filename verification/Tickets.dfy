/** Single-use hand-off tickets, and when forgetting expired ones is safe. */
module Tickets {

  /** The longest a ticket may still be valid for, in seconds. */
  const MAX_LIFETIME := 60

  /** What verification makes of a ticket: its expiry and claims, whether its signature holds, and whether
      the claims can be read. */
  datatype Reading = Malformed | Parsed(expiry: int, claims: string, genuine: bool, readable: bool)

  predicate Verifies(r: Reading, now: int) {
    r.Parsed? && r.genuine && now <= r.expiry <= now + MAX_LIFETIME
  }

  /** The spent tickets that have not expired. */
  function Pruned(used: map<string, int>, now: int): map<string, int> {
    map t | t in used && used[t] >= now :: used[t]
  }

  /** The service's table of spent tickets. */
  class TicketDesk {
    const read: string -> Reading
    var used: map<string, int>

    constructor (read: string -> Reading)
      ensures this.read == read && used == map[]
    {
      this.read, used := read, map[];
    }

    method Redeem(ticket: string, now: int) returns (ok: bool)
      modifies this`used
      ensures ok == Redeems(read(ticket), old(used), ticket, now)
      ensures used == TableAfter(read(ticket), old(used), ticket, now)
    {
      var r := read(ticket);
      if !Verifies(r, now) {
        return false;
      }
      used := Pruned(used, now);
      if ticket in used || !r.readable {
        return false;
      }
      used := used[ticket := r.expiry];
      return true;
    }
  }

  predicate Redeems(r: Reading, used: map<string, int>, ticket: string, now: int) {
    Verifies(r, now) && ticket !in Pruned(used, now) && r.readable
  }

  function TableAfter(r: Reading, used: map<string, int>, ticket: string, now: int): map<string, int> {
    if !Verifies(r, now) then used
    else if Redeems(r, used, ticket, now) then Pruned(used, now)[ticket := r.expiry]
    else Pruned(used, now)
  }

  // ---- a desk that forgets and a desk that never does ----

  datatype Request = Request(ticket: string, now: int)

  function Table(read: string -> Reading, rs: seq<Request>): map<string, int> {
    if rs == [] then map[]
    else
      var r := rs[|rs| - 1];
      TableAfter(read(r.ticket), Table(read, rs[..|rs| - 1]), r.ticket, r.now)
  }

  /** The answer to the `n`th request. */
  predicate Answer(read: string -> Reading, rs: seq<Request>, n: nat)
    requires n < |rs|
  {
    Redeems(read(rs[n].ticket), Table(read, rs[..n]), rs[n].ticket, rs[n].now)
  }

  /** The tickets a desk that never forgets has redeemed. */
  function Spent(read: string -> Reading, rs: seq<Request>): set<string> {
    if rs == [] then {}
    else
      var r, before := rs[|rs| - 1], Spent(read, rs[..|rs| - 1]);
      if Verifies(read(r.ticket), r.now) && r.ticket !in before && read(r.ticket).readable then before + {r.ticket} else before
  }

  predicate TrueAnswer(read: string -> Reading, rs: seq<Request>, n: nat)
    requires n < |rs|
  {
    Verifies(read(rs[n].ticket), rs[n].now) && rs[n].ticket !in Spent(read, rs[..n]) && read(rs[n].ticket).readable
  }

  ghost predicate AnswersAgree(read: string -> Reading, rs: seq<Request>) {
    forall n :: 0 <= n < |rs| ==> Answer(read, rs, n) == TrueAnswer(read, rs, n)
  }

  /** The clock never comes back, within a ticket's lifetime, to where it was before an advance. */
  ghost predicate SteadyClock(rs: seq<Request>) {
    forall i, j, k :: 0 <= i < j < k < |rs| && rs[i].now < rs[j].now && rs[k].now < rs[j].now ==>
      !(-MAX_LIFETIME <= rs[i].now - rs[k].now <= MAX_LIFETIME)
  }

  /** A ticket that was forgotten had been redeemed, and had expired at a later request. */
  ghost predicate Forgotten(read: string -> Reading, rs: seq<Request>, n: nat, t: string)
    requires n <= |rs|
  {
    && read(t).Parsed?
    && exists i, j :: 0 <= i < j < n && rs[i].now <= read(t).expiry <= rs[i].now + MAX_LIFETIME && read(t).expiry < rs[j].now
  }

  ghost predicate TableOk(read: string -> Reading, rs: seq<Request>, n: nat)
    requires n <= |rs|
  {
    && (forall t :: t in Table(read, rs[..n]) ==> t in Spent(read, rs[..n]))
    && (forall t :: t in Spent(read, rs[..n]) ==>
          && read(t).Parsed?
          && (t in Table(read, rs[..n]) ==> Table(read, rs[..n])[t] == read(t).expiry)
          && (exists i :: 0 <= i < n && rs[i].now <= read(t).expiry <= rs[i].now + MAX_LIFETIME)
          && (t !in Table(read, rs[..n]) ==> Forgotten(read, rs, n, t)))
  }

  /** A forgotten ticket no longer verifies. */
  lemma ForgottenHasExpired(read: string -> Reading, rs: seq<Request>, n: nat, t: string)
    requires n < |rs| && SteadyClock(rs) && Forgotten(read, rs, n, t)
    ensures !Verifies(read(t), rs[n].now)
  {
    var i, j :| 0 <= i < j < n && rs[i].now <= read(t).expiry <= rs[i].now + MAX_LIFETIME && read(t).expiry < rs[j].now;
    assert rs[i].now < rs[j].now;
    assert rs[n].now < rs[j].now ==> !(-MAX_LIFETIME <= rs[i].now - rs[n].now <= MAX_LIFETIME);
  }

  lemma ForgottenIsRefused(read: string -> Reading, rs: seq<Request>, n: nat)
    requires n < |rs| && SteadyClock(rs) && TableOk(read, rs, n)
    ensures Answer(read, rs, n) == TrueAnswer(read, rs, n)
  {
    var t, used := rs[n].ticket, Table(read, rs[..n]);
    if t in Spent(read, rs[..n]) && t !in used {
      ForgottenHasExpired(read, rs, n, t);
    }
  }

  lemma NextTableOk(read: string -> Reading, rs: seq<Request>, n: nat)
    requires n < |rs| && TableOk(read, rs, n) && Answer(read, rs, n) == TrueAnswer(read, rs, n)
    ensures TableOk(read, rs, n + 1)
  {
    assert rs[..n + 1][..n] == rs[..n];
    var used, used' := Table(read, rs[..n]), Table(read, rs[..n + 1]);
    forall t | t in Spent(read, rs[..n + 1])
      ensures read(t).Parsed?
      ensures t in used' ==> used'[t] == read(t).expiry
      ensures exists i :: 0 <= i < n + 1 && rs[i].now <= read(t).expiry <= rs[i].now + MAX_LIFETIME
      ensures t !in used' ==> Forgotten(read, rs, n + 1, t)
    {
      if t in Spent(read, rs[..n]) {
        var i :| 0 <= i < n && rs[i].now <= read(t).expiry <= rs[i].now + MAX_LIFETIME;
        if t in used && t !in used' {
          assert read(t).expiry < rs[n].now;
        } else if t !in used {
          var a, b :| 0 <= a < b < n && rs[a].now <= read(t).expiry <= rs[a].now + MAX_LIFETIME && read(t).expiry < rs[b].now;
          assert 0 <= a < b < n + 1;
        }
      } else {
        assert rs[n].now <= read(t).expiry <= rs[n].now + MAX_LIFETIME;
      }
    }
  }

  lemma {:induction false} TablesOk(read: string -> Reading, rs: seq<Request>, n: nat)
    requires SteadyClock(rs) && n <= |rs|
    ensures TableOk(read, rs, n)
  {
    if n > 0 {
      TablesOk(read, rs, n - 1);
      ForgottenIsRefused(read, rs, n - 1);
      NextTableOk(read, rs, n - 1);
    }
  }

  lemma SteadyClocksAgree(read: string -> Reading, rs: seq<Request>)
    requires SteadyClock(rs)
    ensures AnswersAgree(read, rs)
  {
    forall n | 0 <= n < |rs|
      ensures Answer(read, rs, n) == TrueAnswer(read, rs, n)
    {
      TablesOk(read, rs, n);
      ForgottenIsRefused(read, rs, n);
    }
  }

  /** With a clock that only goes forward, forgetting changes no answer. */
  lemma ForwardClocksAgree(read: string -> Reading, rs: seq<Request>)
    requires forall i, j :: 0 <= i < j < |rs| ==> rs[i].now <= rs[j].now
    ensures AnswersAgree(read, rs)
  {
    SteadyClocksAgree(read, rs);
  }

  lemma {:induction false} SpentGrows(read: string -> Reading, rs: seq<Request>, m: nat, n: nat)
    requires m <= n <= |rs|
    ensures Spent(read, rs[..m]) <= Spent(read, rs[..n])
  {
    if m < n {
      SpentGrows(read, rs, m, n - 1);
      assert rs[..n][..n - 1] == rs[..n - 1];
    }
  }

  /** ... so a ticket is redeemed at most once. */
  lemma RedeemedAtMostOnce(read: string -> Reading, rs: seq<Request>, i: nat, j: nat)
    requires SteadyClock(rs) && i < j < |rs| && rs[i].ticket == rs[j].ticket
    ensures !(Answer(read, rs, i) && Answer(read, rs, j))
  {
    SteadyClocksAgree(read, rs);
    NeverTwice(read, rs, i, j);
  }

  // ---- and when forgetting is not safe ----

  /** Three tickets: one that is redeemed, one that is only good at a later time, and no others. */
  function TwoTickets(first: int, later: int): string -> Reading {
    (t: string) => if t == "a" then Parsed(first, t, true, true) else if t == "b" then Parsed(later, t, true, true) else Malformed
  }

  /** The first ticket at two of the times, the other between them, and nothing valid elsewhere. */
  function Replay(times: seq<int>, i: nat, j: nat, k: nat): seq<Request> {
    seq(|times|, n requires 0 <= n < |times| =>
      Request(if n == i || n == k then "a" else if n == j then "b" else "", times[n]))
  }

  lemma {:induction false} QuietStretch(read: string -> Reading, rs: seq<Request>, m: nat, n: nat)
    requires m <= n <= |rs| && forall l :: m <= l < n ==> read(rs[l].ticket) == Malformed
    ensures Table(read, rs[..n]) == Table(read, rs[..m])
  {
    if m < n {
      QuietStretch(read, rs, m, n - 1);
      assert rs[..n][..n - 1] == rs[..n - 1];
    }
  }

  lemma TableStep(read: string -> Reading, rs: seq<Request>, n: nat)
    requires n < |rs|
    ensures Table(read, rs[..n + 1]) == TableAfter(read(rs[n].ticket), Table(read, rs[..n]), rs[n].ticket, rs[n].now)
  {
    assert rs[..n + 1][..n] == rs[..n];
  }

  lemma FreshTicketIsRedeemed(read: string -> Reading, rs: seq<Request>, n: nat)
    requires n < |rs| && rs[n].ticket !in Table(read, rs[..n])
    requires Verifies(read(rs[n].ticket), rs[n].now) && read(rs[n].ticket).readable
    ensures Answer(read, rs, n)
    ensures forall t {:trigger t in Table(read, rs[..n + 1])} :: t in Table(read, rs[..n + 1]) <==>
              t == rs[n].ticket || (t in Table(read, rs[..n]) && Table(read, rs[..n])[t] >= rs[n].now)
    ensures Table(read, rs[..n + 1])[rs[n].ticket] == read(rs[n].ticket).expiry
  {
    TableStep(read, rs, n);
  }

  /** A ticket used, forgotten at a later time, and used again at an earlier one. */
  lemma UsedTwice(read: string -> Reading, rs: seq<Request>, i: nat, j: nat, k: nat)
    requires i < j < k < |rs| && rs[i].ticket == rs[k].ticket != rs[j].ticket
    requires forall n :: 0 <= n < k && n != i && n != j ==> read(rs[n].ticket) == Malformed
    requires Verifies(read(rs[i].ticket), rs[i].now) && Verifies(read(rs[i].ticket), rs[k].now)
    requires Verifies(read(rs[j].ticket), rs[j].now) && read(rs[i].ticket).readable && read(rs[j].ticket).readable
    requires read(rs[i].ticket).expiry < rs[j].now
    ensures Answer(read, rs, i) && Answer(read, rs, k)
  {
    assert rs[..0] == [];
    QuietStretch(read, rs, 0, i);
    assert Table(read, rs[..i]) == map[];
    FreshTicketIsRedeemed(read, rs, i);
    QuietStretch(read, rs, i + 1, j);
    assert rs[j].ticket !in Table(read, rs[..i + 1]);
    FreshTicketIsRedeemed(read, rs, j);
    QuietStretch(read, rs, j + 1, k);
    FreshTicketIsRedeemed(read, rs, k);
  }

  /** When the clock does come back, some ticket is redeemed twice. */
  lemma ForgettingCanReplay(times: seq<int>, i: nat, j: nat, k: nat)
    requires i < j < k < |times| && times[i] < times[j] && times[k] < times[j]
    requires -MAX_LIFETIME <= times[i] - times[k] <= MAX_LIFETIME
    ensures var read, rs := TwoTickets(if times[i] >= times[k] then times[i] else times[k], times[j]), Replay(times, i, j, k);
            Answer(read, rs, i) && Answer(read, rs, k)
  {
    var read, rs := TwoTickets(if times[i] >= times[k] then times[i] else times[k], times[j]), Replay(times, i, j, k);
    UsedTwice(read, rs, i, j, k);
  }

  ghost predicate AgreesAlways(times: seq<int>) {
    forall read: string -> Reading, rs: seq<Request> ::
      |rs| == |times| && (forall n :: 0 <= n < |rs| ==> rs[n].now == times[n]) ==> AnswersAgree(read, rs)
  }

  ghost predicate SteadyTimes(times: seq<int>) {
    forall i, j, k :: 0 <= i < j < k < |times| && times[i] < times[j] && times[k] < times[j] ==>
      !(-MAX_LIFETIME <= times[i] - times[k] <= MAX_LIFETIME)
  }

  /** Forgetting changes no answer, whatever the tickets, exactly when the clock readings are such
      that the clock never comes back within a ticket's lifetime to where it was before an advance. */
  lemma ForgettingIsSafeIff(times: seq<int>)
    ensures AgreesAlways(times) <==> SteadyTimes(times)
  {
    if SteadyTimes(times) {
      forall read: string -> Reading, rs: seq<Request>
        | |rs| == |times| && (forall n :: 0 <= n < |rs| ==> rs[n].now == times[n])
        ensures AnswersAgree(read, rs)
      {
        SteadyClocksAgree(read, rs);
      }
    } else {
      var i, j, k :| 0 <= i < j < k < |times| && times[i] < times[j] && times[k] < times[j]
        && -MAX_LIFETIME <= times[i] - times[k] <= MAX_LIFETIME;
      var read, rs := TwoTickets(if times[i] >= times[k] then times[i] else times[k], times[j]), Replay(times, i, j, k);
      ForgettingCanReplay(times, i, j, k);
      NeverTwice(read, rs, i, k);
      assert Answer(read, rs, i) && Answer(read, rs, k);
      assert !AnswersAgree(read, rs);
    }
  }

  /** A desk that never forgets redeems no ticket twice, whatever the clock does. */
  lemma NeverTwice(read: string -> Reading, rs: seq<Request>, i: nat, j: nat)
    requires i < j < |rs| && rs[i].ticket == rs[j].ticket
    ensures !(TrueAnswer(read, rs, i) && TrueAnswer(read, rs, j))
  {
    if TrueAnswer(read, rs, i) {
      assert rs[..i + 1][..i] == rs[..i];
      assert rs[i].ticket in Spent(read, rs[..i + 1]);
      SpentGrows(read, rs, i + 1, j);
    }
  }
}
