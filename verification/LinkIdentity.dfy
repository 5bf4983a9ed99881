/** When a link arrives at the record it left from: exactly when the parent has a uid. */
module LinkIdentity {
  import opened Wrappers
  import opened LinkModel
  import opened LinkGraph

  /** Ids and uids are unique in a table. */
  ghost predicate Keyed(t: Table) {
    forall i, j :: 0 <= i < j < |t.rows| ==>
      t.rows[i].id != t.rows[j].id && (t.rows[i].uid.Some? ==> t.rows[i].uid != t.rows[j].uid)
  }

  ghost predicate Accepts(dst: Database, fks: seq<ForeignKey>, sent: Data, b: nat) {
    (forall name :: name in dst.tables ==> Keyed(dst.tables[name])) && Resolve(dst, fks, sent, Some(b)).Applied?
  }

  /** The link goes to a local row that carries the uid, or the lack of one, of the source's parent. */
  ghost predicate ArrivesRight(src: Database, dst: Database, fks: seq<ForeignKey>, row: Data, sent: Data, b: nat, i: nat)
    requires i < |fks| && Get(row, fks[i].column).Id? && Accepts(dst, fks, sent, b)
  {
    var before, after := Get(row, fks[i].column), Get(Resolve(dst, fks, sent, Some(b)).data, fks[i].column);
    after.Id? && exists p ::
      LocalParent(dst, fks[i].parent, after.id, Some(b), p) && p.uid == ParentUid(src, fks[i].parent, before.id)
  }

  // ---- uids that are nowhere yet ----

  function Long(n: nat): string {
    seq(n, _ => 'x')
  }

  ghost function TotalLength(keys: set<string>, data: Data): (n: nat)
    requires keys <= data.Keys
    ensures forall x :: x in keys && data[x].Text? ==> |data[x].text| <= n
  {
    if keys == {} then 0
    else
      var k :| k in keys;
      TotalLength(keys - {k}, data) + if data[k].Text? then |data[k].text| else 0
  }

  function LongestUid(rows: seq<ParentRow>): (n: nat)
    ensures forall i :: 0 <= i < |rows| && rows[i].uid.Some? ==> |rows[i].uid.value| <= n
  {
    if rows == [] then 0
    else
      var n := LongestUid(rows[..|rows| - 1]);
      var uid := rows[|rows| - 1].uid;
      if uid.Some? && |uid.value| > n then |uid.value| else n
  }

  /** All texts of the payload are shorter. */
  ghost predicate Shorter(data: Data, n: nat) {
    forall x :: x in data && data[x].Text? ==> |data[x].text| < n
  }

  // ---- a destination in which every row of the parent's table has a uid ----

  /** Rows without a uid get one of their own, of at least `n` characters. */
  function NamedTable(t: Table, n: nat): Table {
    t.(rows := seq(|t.rows|, i requires 0 <= i < |t.rows| =>
      if t.rows[i].uid.None? then t.rows[i].(uid := Some(Long(n + i))) else t.rows[i]))
  }

  function NamedIn(db: Database, parent: string, n: nat): Database {
    if parent in db.tables then db.(tables := db.tables[parent := NamedTable(db.tables[parent], n)]) else db
  }

  lemma NamingKeepsKeyed(t: Table, n: nat)
    requires Keyed(t) && n > LongestUid(t.rows)
    ensures Keyed(NamedTable(t, n))
  {
    var rows := NamedTable(t, n).rows;
    forall i, j | 0 <= i < j < |t.rows|
      ensures rows[i].id != rows[j].id && (rows[i].uid.Some? ==> rows[i].uid != rows[j].uid)
    {
      assert t.rows[i].id != t.rows[j].id;
      assert |Long(n + i)| == n + i && |Long(n + j)| == n + j;
    }
  }

  lemma {:induction false} NamingKeepsUids(t: Table, n: nat, uid: string, scope: Option<nat>, from: nat)
    requires from <= |t.rows| && |uid| < n
    ensures FindByUid(NamedTable(t, n), uid, scope, from) == FindByUid(t, uid, scope, from)
    decreases |t.rows| - from
  {
    if from < |t.rows| {
      NamingKeepsUids(t, n, uid, scope, from + 1);
      assert |Long(n + from)| == n + from;
    }
  }

  lemma NamingKeepsIds(t: Table, n: nat, id: nat, scope: Option<nat>)
    ensures HasId(NamedTable(t, n), id, scope) == HasId(t, id, scope)
  {
    var named := NamedTable(t, n);
    if i :| 0 <= i < |t.rows| && t.rows[i].id == id && InScope(t, t.rows[i], scope) {
      assert named.rows[i].id == id;
    }
    if i :| 0 <= i < |t.rows| && named.rows[i].id == id && InScope(named, named.rows[i], scope) {
      assert t.rows[i].id == id;
    }
  }

  lemma NamingKeepsOne(db: Database, parent: string, n: nat, fk: ForeignKey, data: Data, business: Option<nat>)
    requires Shorter(data, n)
    ensures ResolveOne(NamedIn(db, parent, n), fk, data, business) == ResolveOne(db, fk, data, business)
  {
    var t, raw, carried := TableOf(db, fk.parent), Get(data, fk.column), CarriedUid(data, fk.column);
    if carried.Text? {
      NamingKeepsUids(t, n, carried.text, business, 0);
    }
    if raw.Id? {
      NamingKeepsIds(t, n, raw.id, OwnerOf(data, business));
    }
    assert TableOf(NamedIn(db, parent, n), fk.parent) == t || TableOf(NamedIn(db, parent, n), fk.parent) == NamedTable(t, n);
  }

  lemma ResolvingInventsNoText(db: Database, n: nat, fk: ForeignKey, data: Data, business: Option<nat>)
    requires Shorter(data, n)
    ensures var v := ResolveOne(db, fk, data, business); v.Applied? ==> Shorter(v.data, n)
  {
  }

  /** Giving rows without a uid one that nobody asks for changes no resolution. */
  lemma {:induction false} NamingKeepsResolution(db: Database, parent: string, n: nat, fks: seq<ForeignKey>, data: Data,
                                                 business: Option<nat>)
    requires Shorter(data, n)
    ensures Resolve(NamedIn(db, parent, n), fks, data, business) == Resolve(db, fks, data, business)
    decreases |fks|
  {
    if fks != [] {
      NamingKeepsOne(db, parent, n, fks[0], data, business);
      ResolvingInventsNoText(db, n, fks[0], data, business);
      var v := ResolveOne(db, fks[0], data, business);
      if v.Applied? {
        NamingKeepsResolution(db, parent, n, fks[1..], v.data, business);
      }
    }
  }

  // ---- right everywhere, or not ----

  /** Wherever a row with a uid-less parent is accepted with that link, it would be accepted with the
      same link if the row of that id here were another record. */
  lemma UidlessLinkCanBeWrong(src: Database, dst: Database, fks: seq<ForeignKey>, row: Data, sent: Data, b: nat, i: nat)
    returns (other: Database)
    requires i < |fks| && Get(row, fks[i].column).Id? && ParentUid(src, fks[i].parent, Get(row, fks[i].column).id).None?
    requires Accepts(dst, fks, sent, b)
    ensures Accepts(other, fks, sent, b) && !ArrivesRight(src, other, fks, row, sent, b, i)
  {
    var t := TableOf(dst, fks[i].parent);
    var n := TotalLength(sent.Keys, sent) + LongestUid(t.rows) + 1;
    other := NamedIn(dst, fks[i].parent, n);
    NamingKeepsResolution(dst, fks[i].parent, n, fks, sent, Some(b));
    if fks[i].parent in dst.tables {
      NamingKeepsKeyed(t, n);
    }
    assert forall p :: p in TableOf(other, fks[i].parent).rows ==> p.uid.Some?;
  }

  lemma LinkWithUidArrivesRight(src: Database, dst: Database, fks: seq<ForeignKey>, row: Data, sent: Data, b: nat, i: nat)
    requires DistinctAliases(fks) && NoAliasColumns(fks, row) && WellNamed(fks)
    requires i < |fks| && fks[i].parent != USERS && SameOn(sent, Serialize(src, fks, row), Names(fks[i].column))
    requires Get(row, fks[i].column).Id? && ParentUid(src, fks[i].parent, Get(row, fks[i].column).id).Some?
    requires Accepts(dst, fks, sent, b)
    ensures ArrivesRight(src, dst, fks, row, sent, b, i)
  {
    LinkGraphSurvives(src, dst, fks, row, sent, b, i);
  }

  ghost predicate AlwaysArrivesRight(src: Database, fks: seq<ForeignKey>, row: Data, sent: Data, b: nat, i: nat)
    requires i < |fks| && Get(row, fks[i].column).Id?
  {
    forall dst: Database :: Accepts(dst, fks, sent, b) ==> ArrivesRight(src, dst, fks, row, sent, b, i)
  }

  /** A link of a row that is accepted somewhere arrives at the record it left from, wherever the row
      is accepted, if and only if the source's parent has a uid. */
  lemma ArrivesRightIff(src: Database, somewhere: Database, fks: seq<ForeignKey>, row: Data, sent: Data, b: nat, i: nat)
    requires DistinctAliases(fks) && NoAliasColumns(fks, row) && WellNamed(fks)
    requires i < |fks| && fks[i].parent != USERS && SameOn(sent, Serialize(src, fks, row), Names(fks[i].column))
    requires Get(row, fks[i].column).Id? && Accepts(somewhere, fks, sent, b)
    ensures AlwaysArrivesRight(src, fks, row, sent, b, i) <==> ParentUid(src, fks[i].parent, Get(row, fks[i].column).id).Some?
  {
    if ParentUid(src, fks[i].parent, Get(row, fks[i].column).id).Some? {
      forall dst: Database | Accepts(dst, fks, sent, b)
        ensures ArrivesRight(src, dst, fks, row, sent, b, i)
      {
        LinkWithUidArrivesRight(src, dst, fks, row, sent, b, i);
      }
    } else {
      var other := UidlessLinkCanBeWrong(src, somewhere, fks, row, sent, b, i);
    }
  }
}
