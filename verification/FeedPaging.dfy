/** Paging through the feed, and regrouping a page by entity. */
module FeedPaging {
  import opened Wrappers
  import opened FeedOwners
  import opened FeedModel
  import opened FeedReplica

  function Min(a: nat, b: nat): nat {
    if a <= b then a else b
  }

  /** The events of `b` with the revisions right after the cursor, in order. */
  ghost predicate Consecutive(events: set<Event>, b: Business, cursor: nat, page: seq<Event>) {
    forall i :: 0 <= i < |page| ==> page[i] in events && page[i].business == b && page[i].revision == cursor + 1 + i
  }

  /** A page that follows the cursor holds exactly the next revisions, up to the limit. */
  lemma PageHoldsTheNextRevisions(events: set<Event>, b: Business, clock: nat, cursor: nat, limit: nat, page: seq<Event>, more: bool)
    requires Dense(events, b, 0, clock) && cursor <= clock && limit >= 1
    requires IsPage(events, b, cursor, limit, page, more)
    ensures |page| == Min(limit, clock - cursor)
    ensures Consecutive(events, b, cursor, page)
    ensures more <==> cursor + limit < clock
  {
    PageIsConsecutive(events, b, clock, cursor, limit, page, more, |page|);
    if |page| < clock - cursor {
      var next := cursor + |page| + 1;
      assert HasRevision(events, b, next);
      var e :| e in events && e.business == b && e.revision == next;
      assert After(events, b, cursor, e) && e !in page;
    }
    if page != [] {
      assert After(events, b, cursor, page[|page| - 1]);
    }
    if more {
      var e :| After(events, b, cursor, e) && e !in page;
      assert e.revision <= clock;
    }
  }

  lemma {:induction false} PageIsConsecutive(events: set<Event>, b: Business, clock: nat, cursor: nat, limit: nat,
                                             page: seq<Event>, more: bool, n: nat)
    requires Dense(events, b, 0, clock) && cursor <= clock && limit >= 1
    requires IsPage(events, b, cursor, limit, page, more) && n <= |page|
    ensures forall i :: 0 <= i < n ==> page[i].revision == cursor + 1 + i
  {
    if n > 0 {
      PageIsConsecutive(events, b, clock, cursor, limit, page, more, n - 1);
      var wanted := cursor + n;
      assert After(events, b, cursor, page[n - 1]);
      assert n > 1 ==> page[n - 2].revision < page[n - 1].revision;
      assert HasRevision(events, b, wanted);
      var e :| e in events && e.business == b && e.revision == wanted;
      assert After(events, b, cursor, e);
      assert e in page;
      var j :| 0 <= j < |page| && page[j] == e;
    }
  }

  /** Successive pulls until one reports no more, while nothing is written. */
  ghost predicate PullsUntilDone(events: set<Event>, b: Business, cursor: nat, limit: nat, pages: seq<seq<Event>>)
    decreases |pages|
  {
    && |pages| > 0
    && IsPage(events, b, cursor, limit, pages[0], |pages| > 1)
    && (|pages| > 1 ==> PullsUntilDone(events, b, Last(pages[0], cursor), limit, pages[1..]))
  }

  function Concat(pages: seq<seq<Event>>): seq<Event> {
    if pages == [] then [] else pages[0] + Concat(pages[1..])
  }

  /** The pages together are the whole suffix after the cursor, in order, each event once. */
  lemma {:induction false} PagesAreTheSuffix(events: set<Event>, b: Business, clock: nat, cursor: nat, limit: nat, pages: seq<seq<Event>>)
    requires Dense(events, b, 0, clock) && cursor <= clock && limit >= 1
    requires PullsUntilDone(events, b, cursor, limit, pages)
    ensures |Concat(pages)| == clock - cursor && Consecutive(events, b, cursor, Concat(pages))
    decreases |pages|
  {
    PageHoldsTheNextRevisions(events, b, clock, cursor, limit, pages[0], |pages| > 1);
    if |pages| > 1 {
      PagesAreTheSuffix(events, b, clock, cursor + limit, limit, pages[1..]);
      ConsecutiveConcat(events, b, cursor, pages[0], Concat(pages[1..]));
    } else {
      assert Concat(pages[1..]) == [];
      assert Concat(pages) == pages[0];
    }
  }

  lemma ConsecutiveConcat(events: set<Event>, b: Business, cursor: nat, p: seq<Event>, q: seq<Event>)
    requires Consecutive(events, b, cursor, p) && Consecutive(events, b, cursor + |p|, q)
    ensures Consecutive(events, b, cursor, p + q)
  {
  }

  /** There are just as many pages as the limit requires. */
  lemma {:induction false} NumberOfPages(events: set<Event>, b: Business, clock: nat, cursor: nat, limit: nat, pages: seq<seq<Event>>)
    requires Dense(events, b, 0, clock) && cursor <= clock && limit >= 1
    requires PullsUntilDone(events, b, cursor, limit, pages)
    ensures clock == cursor ==> |pages| == 1
    ensures clock > cursor ==> (|pages| - 1) * limit < clock - cursor <= |pages| * limit
    decreases |pages|
  {
    PageHoldsTheNextRevisions(events, b, clock, cursor, limit, pages[0], |pages| > 1);
    if |pages| > 1 {
      NumberOfPages(events, b, clock, cursor + limit, limit, pages[1..]);
      OneMore(|pages| - 1, limit);
      OneMore(|pages| - 2, limit);
    }
  }

  lemma OneMore(k: nat, limit: nat)
    ensures (k + 1) * limit == k * limit + limit
  {
  }

  ghost function EventAt(events: set<Event>, b: Business, r: nat): (e: Event)
    requires HasRevision(events, b, r)
    ensures e in events && e.business == b && e.revision == r
  {
    var e :| e in events && e.business == b && e.revision == r; e
  }

  ghost function EventsFrom(events: set<Event>, b: Business, clock: nat, cursor: nat, n: nat): (page: seq<Event>)
    requires Dense(events, b, 0, clock) && cursor + n <= clock
    ensures |page| == n && Consecutive(events, b, cursor, page)
  {
    if n == 0 then []
    else
      assert HasRevision(events, b, cursor + n);
      EventsFrom(events, b, clock, cursor, n - 1) + [EventAt(events, b, cursor + n)]
  }

  /** The next page always exists. */
  lemma NextPage(events: set<Event>, b: Business, clock: nat, cursor: nat, limit: nat) returns (page: seq<Event>)
    requires Dense(events, b, 0, clock) && cursor <= clock && limit >= 1
    ensures IsPage(events, b, cursor, limit, page, cursor + limit < clock)
  {
    var n := Min(limit, clock - cursor);
    page := EventsFrom(events, b, clock, cursor, n);
    forall e | After(events, b, cursor, e)
      ensures e in page || (n == limit && e.revision > cursor + n)
    {
      if e.revision <= cursor + n {
        var i := e.revision - cursor - 1;
        assert page[i].revision == e.revision && page[i] in events;
      }
    }
    if cursor + limit < clock {
      assert HasRevision(events, b, clock);
      var e := EventAt(events, b, clock);
      assert After(events, b, cursor, e) && e !in page;
    }
  }

  /** From any cursor, finitely many pulls reach the end of the feed. */
  lemma {:induction false} PullsTerminate(events: set<Event>, b: Business, clock: nat, cursor: nat, limit: nat) returns (pages: seq<seq<Event>>)
    requires Dense(events, b, 0, clock) && cursor <= clock && limit >= 1
    ensures PullsUntilDone(events, b, cursor, limit, pages)
    decreases clock - cursor
  {
    var page := NextPage(events, b, clock, cursor, limit);
    if cursor + limit < clock {
      PageHoldsTheNextRevisions(events, b, clock, cursor, limit, page, true);
      var rest := PullsTerminate(events, b, clock, cursor + limit, limit);
      pages := [page] + rest;
      assert pages[0] == page && pages[1..] == rest && |rest| > 0;
    } else {
      pages := [page];
    }
  }

  // ---- regrouping ----

  /** The payloads of one entity, in the order of the page. */
  function Of(ps: seq<Payload>, entity: string): seq<Payload> {
    if ps == [] then []
    else Of(ps[..|ps| - 1], entity) + (if ps[|ps| - 1].key.entity == entity then [ps[|ps| - 1]] else [])
  }

  /** A replica that applies a page table by table. */
  function ApplyByEntity(rows: map<Key, Row>, ps: seq<Payload>, order: seq<string>, retained: set<string>): map<Key, Row> {
    if order == [] then rows
    else ApplyAll(ApplyByEntity(rows, ps, order[..|order| - 1], retained), Of(ps, order[|order| - 1]), retained)
  }

  lemma {:induction false} OneEntityTouchesOnlyItself(rows: map<Key, Row>, ps: seq<Payload>, entity: string, retained: set<string>, k: Key)
    requires k.entity != entity
    ensures RowAt(ApplyAll(rows, Of(ps, entity), retained), k) == RowAt(rows, k)
  {
    if ps != [] {
      var front, last := ps[..|ps| - 1], ps[|ps| - 1];
      OneEntityTouchesOnlyItself(rows, front, entity, retained, k);
      if last.key.entity == entity {
        AppendOne(rows, Of(front, entity), last, retained);
      } else {
        assert Of(ps, entity) == Of(front, entity);
      }
    }
  }

  lemma AppendOne(rows: map<Key, Row>, ps: seq<Payload>, p: Payload, retained: set<string>)
    ensures ApplyAll(rows, ps + [p], retained) == ApplyPayload(ApplyAll(rows, ps, retained), p, retained)
  {
    assert (ps + [p])[..|ps|] == ps;
  }

  lemma {:induction false} OneEntityDecidesItsRows(rows: map<Key, Row>, others: map<Key, Row>, ps: seq<Payload>, retained: set<string>, k: Key)
    requires RowAt(rows, k) == RowAt(others, k)
    ensures RowAt(ApplyAll(rows, ps, retained), k) == RowAt(ApplyAll(others, Of(ps, k.entity), retained), k)
  {
    if ps != [] {
      var front, last := ps[..|ps| - 1], ps[|ps| - 1];
      OneEntityDecidesItsRows(rows, others, front, retained, k);
      if last.key.entity == k.entity {
        AppendOne(others, Of(front, k.entity), last, retained);
      } else {
        assert Of(ps, k.entity) == Of(front, k.entity);
      }
    }
  }

  lemma {:induction false} EntityAppliedOnce(rows: map<Key, Row>, ps: seq<Payload>, order: seq<string>, retained: set<string>, k: Key)
    requires forall i, j :: 0 <= i < j < |order| ==> order[i] != order[j]
    ensures RowAt(ApplyByEntity(rows, ps, order, retained), k) ==
            if k.entity in order then RowAt(ApplyAll(rows, Of(ps, k.entity), retained), k) else RowAt(rows, k)
  {
    if order != [] {
      var front, last := order[..|order| - 1], order[|order| - 1];
      EntityAppliedOnce(rows, ps, front, retained, k);
      var before := ApplyByEntity(rows, ps, front, retained);
      if last == k.entity {
        assert k.entity !in front;
        SameStartSameRow(before, rows, Of(ps, last), retained, k);
      } else {
        assert k.entity in order <==> k.entity in front;
        OneEntityTouchesOnlyItself(before, ps, last, retained, k);
      }
    }
  }

  lemma {:induction false} SameStartSameRow(rows: map<Key, Row>, others: map<Key, Row>, ps: seq<Payload>, retained: set<string>, k: Key)
    requires RowAt(rows, k) == RowAt(others, k)
    ensures RowAt(ApplyAll(rows, ps, retained), k) == RowAt(ApplyAll(others, ps, retained), k)
  {
    if ps != [] {
      SameStartSameRow(rows, others, ps[..|ps| - 1], retained, k);
    }
  }

  lemma {:induction false} NoPayloadNoChange(rows: map<Key, Row>, ps: seq<Payload>, retained: set<string>, k: Key)
    requires forall i :: 0 <= i < |ps| ==> ps[i].key.entity != k.entity
    ensures Of(ps, k.entity) == []
  {
    if ps != [] {
      NoPayloadNoChange(rows, ps[..|ps| - 1], retained, k);
    }
  }

  /** Applying a page table by table, in any order of tables, gives the same replica as applying
      it in revision order. */
  lemma RegroupingIsHarmless(rows: map<Key, Row>, ps: seq<Payload>, order: seq<string>, retained: set<string>)
    requires forall i, j :: 0 <= i < j < |order| ==> order[i] != order[j]
    requires forall i :: 0 <= i < |ps| ==> ps[i].key.entity in order
    ensures ApplyByEntity(rows, ps, order, retained) == ApplyAll(rows, ps, retained)
  {
    var grouped, ordered := ApplyByEntity(rows, ps, order, retained), ApplyAll(rows, ps, retained);
    forall k
      ensures RowAt(grouped, k) == RowAt(ordered, k)
    {
      EntityAppliedOnce(rows, ps, order, retained, k);
      OneEntityDecidesItsRows(rows, rows, ps, retained, k);
      if k.entity !in order {
        NoPayloadNoChange(rows, ps, retained, k);
      }
    }
    assert forall k :: (k in grouped <==> RowAt(grouped, k).Some?) && (k in ordered <==> RowAt(ordered, k).Some?);
    assert grouped.Keys == ordered.Keys;
    forall k | k in grouped ensures grouped[k] == ordered[k] {
      assert RowAt(grouped, k) == RowAt(ordered, k);
    }
  }
}
