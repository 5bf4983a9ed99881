/** Rows that wait for their parents, and what a pass over them applies. */
module Deferral {
  import opened Wrappers
  import opened LinkModel
  import opened LinkGraph

  /** A row by table and uid. */
  datatype ParentKey = ParentKey(table: string, uid: string)

  /** A payload held until its parents are local. */
  datatype Held = Held(key: ParentKey, parents: set<ParentKey>)

  // ---- from payloads to parents ----

  /** Every link of the payload is blank or carries a uid of a table that has uids. */
  ghost predicate CarriesUids(db: Database, fks: seq<ForeignKey>, data: Data) {
    forall i :: 0 <= i < |fks| ==>
      && fks[i].parent != USERS
      && if Truthy(CarriedUid(data, fks[i].column))
         then CarriedUid(data, fks[i].column).Text? && TableOf(db, fks[i].parent).hasUid
         else Blank(Get(data, fks[i].column))
  }

  function Parents(fks: seq<ForeignKey>, data: Data): set<ParentKey> {
    set i | 0 <= i < |fks| && Truthy(CarriedUid(data, fks[i].column)) && CarriedUid(data, fks[i].column).Text? ::
      ParentKey(fks[i].parent, CarriedUid(data, fks[i].column).text)
  }

  /** The business has that row here. */
  ghost predicate Here(db: Database, b: nat, key: ParentKey) {
    exists row :: row in TableOf(db, key.table).rows && row.uid == Some(key.uid) && InScope(TableOf(db, key.table), row, Some(b))
  }

  /** A payload that carries uids waits exactly as long as one of its parents is not here. */
  lemma WaitsExactlyForMissingParents(db: Database, fks: seq<ForeignKey>, data: Data, b: nat)
    requires WellNamed(fks) && CarriesUids(db, fks, data)
    ensures Resolve(db, fks, data, Some(b)).Deferred? <==> exists p :: p in Parents(fks, data) && !Here(db, b, p)
  {
    WaitsExactlyForSomeLink(db, fks, data, b);
    forall i | 0 <= i < |fks|
      ensures ResolveOne(db, fks[i], data, Some(b)).Deferred? <==>
              Truthy(CarriedUid(data, fks[i].column)) && !Here(db, b, ParentKey(fks[i].parent, CarriedUid(data, fks[i].column).text))
    {
      var uid := CarriedUid(data, fks[i].column);
      if Truthy(uid) {
        var t := TableOf(db, fks[i].parent);
        FindByUidIsRight(t, uid.text, Some(b), 0);
        assert forall row :: row in t.rows ==> exists j :: 0 <= j < |t.rows| && t.rows[j] == row;
      }
    }
    if Resolve(db, fks, data, Some(b)).Deferred? {
      var i :| 0 <= i < |fks| && ResolveOne(db, fks[i], data, Some(b)).Deferred?;
      assert ParentKey(fks[i].parent, CarriedUid(data, fks[i].column).text) in Parents(fks, data);
    }
    if p :| p in Parents(fks, data) && !Here(db, b, p) {
      var i :| 0 <= i < |fks| && Truthy(CarriedUid(data, fks[i].column)) && CarriedUid(data, fks[i].column).Text?
               && p == ParentKey(fks[i].parent, CarriedUid(data, fks[i].column).text);
      assert ResolveOne(db, fks[i], data, Some(b)).Deferred?;
    }
  }

  // ---- passes ----

  datatype Progress = Progress(local: set<ParentKey>, waiting: seq<Held>)

  /** One pass over the rows in turn: a row whose parents are all here is applied, and is here
      for the rows after it. */
  function Pass(local: set<ParentKey>, rows: seq<Held>): Progress {
    if rows == [] then Progress(local, [])
    else
      var before := Pass(local, rows[..|rows| - 1]);
      var row := rows[|rows| - 1];
      if row.parents <= before.local then before.(local := before.local + {row.key})
      else before.(waiting := before.waiting + [row])
  }

  function Passes(local: set<ParentKey>, rows: seq<Held>, n: nat): Progress
    decreases n
  {
    if n == 0 then Progress(local, rows)
    else var p := Pass(local, rows); Passes(p.local, p.waiting, n - 1)
  }

  // ---- the same pass on real payloads ----

  /** A payload of a row of one table, with the links of that table. */
  datatype Incoming = Incoming(key: ParentKey, fks: seq<ForeignKey>, data: Data)

  function HeldOf(r: Incoming): Held {
    Held(r.key, Parents(r.fks, r.data))
  }

  function HeldAll(rows: seq<Incoming>): seq<Held> {
    seq(|rows|, i requires 0 <= i < |rows| => HeldOf(rows[i]))
  }

  /** The receiving database numbers an accepted row itself. */
  function Accept(db: Database, b: nat, key: ParentKey): Database {
    var t := TableOf(db, key.table);
    db.(tables := db.tables[key.table := t.(rows := t.rows + [ParentRow(|t.rows|, Some(key.uid), Some(b))])])
  }

  /** Applies what can be applied, one payload after the other; the rest waits. */
  function ApplyInTurn(db: Database, b: nat, rows: seq<Incoming>): (Database, seq<Incoming>) {
    if rows == [] then (db, [])
    else
      var before := ApplyInTurn(db, b, rows[..|rows| - 1]);
      var r := rows[|rows| - 1];
      if Resolve(before.0, r.fks, r.data, Some(b)).Deferred? then (before.0, before.1 + [r])
      else (Accept(before.0, b, r.key), before.1)
  }

  lemma AcceptedRowsAreHere(db: Database, b: nat, key: ParentKey, p: ParentKey)
    ensures Here(Accept(db, b, key), b, p) <==> Here(db, b, p) || p == key
    ensures forall name :: TableOf(Accept(db, b, key), name).hasUid == TableOf(db, name).hasUid
  {
    var t, t' := TableOf(db, key.table), TableOf(Accept(db, b, key), key.table);
    var added := ParentRow(|t.rows|, Some(key.uid), Some(b));
    assert t'.rows[|t.rows|] == added && added in t'.rows;
    assert forall row :: row in t'.rows <==> row in t.rows || row == added;
  }

  /** Resolving real payloads, uid lookups, renumbering and all, makes the same rows wait, and the
      same rows present, as a pass over their uids. */
  lemma {:induction false} RealPassesFollowTheUids(db: Database, b: nat, rows: seq<Incoming>, local: set<ParentKey>)
    requires forall p :: p in local <==> Here(db, b, p)
    requires forall r :: r in rows ==> WellNamed(r.fks) && CarriesUids(db, r.fks, r.data)
    ensures var actual, p := ApplyInTurn(db, b, rows), Pass(local, HeldAll(rows));
            && HeldAll(actual.1) == p.waiting
            && (forall k :: k in p.local <==> Here(actual.0, b, k))
            && (forall name :: TableOf(actual.0, name).hasUid == TableOf(db, name).hasUid)
  {
    if rows != [] {
      var front, r := rows[..|rows| - 1], rows[|rows| - 1];
      assert HeldAll(rows)[..|rows| - 1] == HeldAll(front);
      RealPassesFollowTheUids(db, b, front, local);
      var before, p := ApplyInTurn(db, b, front), Pass(local, HeldAll(front));
      assert r in rows;
      assert CarriesUids(before.0, r.fks, r.data);
      WaitsExactlyForMissingParents(before.0, r.fks, r.data, b);
      if Resolve(before.0, r.fks, r.data, Some(b)).Deferred? {
        assert HeldAll(before.1 + [r]) == HeldAll(before.1) + [HeldOf(r)];
      } else {
        forall k { AcceptedRowsAreHere(before.0, b, r.key, k); }
      }
    }
  }

  lemma {:induction false} PassOnlyAdds(local: set<ParentKey>, rows: seq<Held>)
    ensures var p := Pass(local, rows);
            && local <= p.local && |p.waiting| <= |rows|
            && (|p.waiting| == |rows| ==> p == Progress(local, rows))
  {
    if rows != [] {
      PassOnlyAdds(local, rows[..|rows| - 1]);
    }
  }

  lemma {:induction false} PassSortsRows(local: set<ParentKey>, rows: seq<Held>, r: Held)
    ensures var p := Pass(local, rows);
            && (r in p.waiting ==> r in rows && !(r.parents <= local))
            && (r in rows && r !in p.waiting ==> r.key in p.local)
  {
    if rows != [] {
      var front := rows[..|rows| - 1];
      PassSortsRows(local, front, r);
      PassOnlyAdds(local, front);
      assert r in rows <==> r in front || r == rows[|rows| - 1];
    }
  }

  lemma PassSortsAllRows(local: set<ParentKey>, rows: seq<Held>)
    ensures var p := Pass(local, rows);
            && (forall r :: r in p.waiting ==> r in rows && !(r.parents <= local))
            && (forall r :: r in rows && r !in p.waiting ==> r.key in p.local)
  {
    forall r { PassSortsRows(local, rows, r); }
  }

  lemma EmptyOrHasAMember<T>(s: seq<T>)
    ensures s == [] || s[0] in s
  {
  }
}
