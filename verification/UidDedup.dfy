/** Removing rows that share a uid, so that uids can be made unique. */
module UidDedup {
  import opened Wrappers

  datatype Row = Row(id: nat, uid: Option<string>, business: Option<nat>)

  predicate UniqueIds(rows: seq<Row>) {
    forall i, j :: 0 <= i < j < |rows| ==> rows[i].id != rows[j].id
  }

  /** Rows the deduplication takes for copies of one another: same uid and same business. */
  predicate SameGroup(r: Row, s: Row) {
    r.uid.Some? && r.uid == s.uid && r.business == s.business
  }

  // ---- the two dialects ----

  /** The rank of a row in its group, newest first. */
  function RowNumber(rows: seq<Row>, r: Row): nat {
    1 + Above(rows, r)
  }

  function Above(rows: seq<Row>, r: Row): nat {
    if rows == [] then 0
    else Above(rows[..|rows| - 1], r) + if SameGroup(r, rows[|rows| - 1]) && rows[|rows| - 1].id > r.id then 1 else 0
  }

  /** The greatest id of the group of a row. */
  function MaxId(rows: seq<Row>, r: Row): Option<nat> {
    if rows == [] then None
    else
      var last, before := rows[|rows| - 1], MaxId(rows[..|rows| - 1], r);
      if SameGroup(r, last) && (before == None || before.value < last.id) then Some(last.id) else before
  }

  /** What PostgreSQL keeps: everything but later ranks. */
  predicate KeptByRank(rows: seq<Row>, r: Row) {
    r.uid.None? || RowNumber(rows, r) <= 1
  }

  /** What SQLite keeps: rows without a uid, and the greatest id of each group. */
  predicate KeptByMax(rows: seq<Row>, r: Row) {
    r.uid.None? || MaxId(rows, r) == Some(r.id)
  }

  function Filtered(rows: seq<Row>, keep: Row -> bool): seq<Row> {
    if rows == [] then []
    else Filtered(rows[..|rows| - 1], keep) + if keep(rows[|rows| - 1]) then [rows[|rows| - 1]] else []
  }

  /** The rows left: those without a uid, and the newest of each group. */
  function Deduped(rows: seq<Row>): seq<Row> {
    Filtered(rows, (r: Row) => KeptByMax(rows, r))
  }

  class Table {
    var rows: seq<Row>

    constructor (rows: seq<Row>)
      ensures this.rows == rows
    {
      this.rows := rows;
    }

    /** Deletes the rows that are not the newest of their group. */
    method Dedup() returns (removed: nat)
      modifies this
      ensures rows == Deduped(old(rows))
      ensures removed == |old(rows)| - |rows|
    {
      var kept: seq<Row> := [];
      removed := 0;
      for i := 0 to |rows|
        invariant rows == old(rows) && removed == i - |kept|
        invariant kept == Filtered(rows[..i], (r: Row) => KeptByMax(old(rows), r))
      {
        assert rows[..i + 1][..i] == rows[..i];
        if KeptByMax(rows, rows[i]) {
          kept := kept + [rows[i]];
        } else {
          removed := removed + 1;
        }
      }
      assert rows[..|rows|] == rows;
      rows := kept;
    }
  }

  // ---- what is kept ----

  /** A newer copy of a row. */
  ghost predicate HasNewer(rows: seq<Row>, r: Row) {
    exists i :: 0 <= i < |rows| && SameGroup(r, rows[i]) && rows[i].id > r.id
  }

  lemma {:induction false} AboveCountsNewer(rows: seq<Row>, r: Row)
    ensures Above(rows, r) > 0 <==> HasNewer(rows, r)
  {
    if rows != [] {
      var n := |rows| - 1;
      AboveCountsNewer(rows[..n], r);
      assert forall i :: 0 <= i < n ==> rows[..n][i] == rows[i];
    }
  }

  lemma {:induction false} MaxIdIsGreatest(rows: seq<Row>, r: Row)
    ensures MaxId(rows, r).None? <==> forall i :: 0 <= i < |rows| ==> !SameGroup(r, rows[i])
    ensures MaxId(rows, r).Some? ==>
              && (forall i :: 0 <= i < |rows| && SameGroup(r, rows[i]) ==> rows[i].id <= MaxId(rows, r).value)
              && (exists i :: 0 <= i < |rows| && SameGroup(r, rows[i]) && rows[i].id == MaxId(rows, r).value)
  {
    if rows != [] {
      var n := |rows| - 1;
      MaxIdIsGreatest(rows[..n], r);
      assert forall i :: 0 <= i < n ==> rows[..n][i] == rows[i];
    }
  }

  /** The ranking and the greatest id keep the same rows. */
  lemma DialectsKeepTheSame(rows: seq<Row>, r: Row)
    requires r in rows
    ensures KeptByRank(rows, r) <==> KeptByMax(rows, r)
    ensures KeptByMax(rows, r) <==> r.uid.None? || !HasNewer(rows, r)
  {
    AboveCountsNewer(rows, r);
    MaxIdIsGreatest(rows, r);
    var k :| 0 <= k < |rows| && rows[k] == r;
    assert r.uid.Some? ==> SameGroup(r, rows[k]);
  }

  lemma {:induction false} FilteredMembers(rows: seq<Row>, keep: Row -> bool, r: Row)
    ensures r in Filtered(rows, keep) <==> r in rows && keep(r)
  {
    if rows != [] {
      FilteredMembers(rows[..|rows| - 1], keep, r);
      assert rows == rows[..|rows| - 1] + [rows[|rows| - 1]];
    }
  }

  /** Just the rows without a uid and those without a newer copy are left. */
  lemma LeftAreNewest(rows: seq<Row>, r: Row)
    ensures r in Deduped(rows) <==> r in rows && (r.uid.None? || !HasNewer(rows, r))
  {
    FilteredMembers(rows, (r: Row) => KeptByMax(rows, r), r);
    if r in rows {
      DialectsKeepTheSame(rows, r);
    }
  }

  /** A row with a uid leaves a copy of itself that is at least as new. */
  lemma {:induction false} SomeCopyIsLeft(rows: seq<Row>, r: Row) returns (s: Row)
    requires UniqueIds(rows) && r in rows && r.uid.Some?
    ensures s in Deduped(rows) && SameGroup(r, s) && s.id >= r.id
  {
    MaxIdIsGreatest(rows, r);
    var k :| 0 <= k < |rows| && rows[k] == r;
    assert SameGroup(r, rows[k]);
    var i :| 0 <= i < |rows| && SameGroup(r, rows[i]) && rows[i].id == MaxId(rows, r).value;
    s := rows[i];
    LeftAreNewest(rows, s);
    assert forall j :: 0 <= j < |rows| && SameGroup(s, rows[j]) ==> SameGroup(r, rows[j]);
  }

  // ---- what the unique index needs ----

  /** No two rows share a uid: what the index created next demands of the table. */
  ghost predicate UniqueUids(rows: seq<Row>) {
    forall r, s :: r in rows && s in rows && r.uid.Some? && r.uid == s.uid ==> r.id == s.id
  }

  /** After the deduplication the index can be created if and only if no uid is shared across
      businesses: the rows are compared by uid and business, the index by uid alone. */
  lemma IndexCanBeCreatedIff(rows: seq<Row>)
    requires UniqueIds(rows)
    ensures UniqueUids(Deduped(rows)) <==>
            forall r, s :: r in rows && s in rows && r.uid.Some? && r.uid == s.uid ==> r.business == s.business
  {
    if UniqueUids(Deduped(rows)) {
      forall r, s | r in rows && s in rows && r.uid.Some? && r.uid == s.uid
        ensures r.business == s.business
      {
        var r' := SomeCopyIsLeft(rows, r);
        var s' := SomeCopyIsLeft(rows, s);
        LeftAreNewest(rows, r');
        LeftAreNewest(rows, s');
        SameIdSameRow(rows, r', s');
      }
    }
    if forall r, s :: r in rows && s in rows && r.uid.Some? && r.uid == s.uid ==> r.business == s.business {
      forall r, s | r in Deduped(rows) && s in Deduped(rows) && r.uid.Some? && r.uid == s.uid
        ensures r.id == s.id
      {
        LeftAreNewest(rows, r);
        LeftAreNewest(rows, s);
        NewestIsOne(rows, r, s);
      }
    }
  }

  lemma SameIdSameRow(rows: seq<Row>, r: Row, s: Row)
    requires UniqueIds(rows) && r in rows && s in rows && r.id == s.id
    ensures r == s
  {
    var i :| 0 <= i < |rows| && rows[i] == r;
    var j :| 0 <= j < |rows| && rows[j] == s;
    assert i == j;
  }

  lemma NewestIsOne(rows: seq<Row>, r: Row, s: Row)
    requires r in rows && s in rows && SameGroup(r, s) && !HasNewer(rows, r) && !HasNewer(rows, s)
    ensures r.id == s.id
  {
    var i :| 0 <= i < |rows| && rows[i] == r;
    var j :| 0 <= j < |rows| && rows[j] == s;
    assert SameGroup(r, rows[j]) && SameGroup(s, rows[i]);
  }
}
