/** Rows that travel between two databases which number them differently, and the rule that a
    foreign key is only written when it is proven local. */
module LinkModel {
  import opened Wrappers

  const USERS := "users"

  /** A column value; only numbers and text matter to links. */
  datatype Value = Null | Id(id: nat) | Text(text: string)
  type Data = map<string, Value>

  datatype ForeignKey = ForeignKey(column: string, parent: string, nullable: bool)

  /** What a table offers to a lookup: a `uid` column, a `business_id` column. */
  datatype Table = Table(hasUid: bool, hasBusiness: bool, rows: seq<ParentRow>)
  datatype ParentRow = ParentRow(id: nat, uid: Option<string>, business: Option<nat>)

  /** A database seen by the link code: its tables, whom a BizID resolves to, an account or the stub that
      is made for it, if any, and the BizIDs of its users. */
  datatype Database = Database(tables: map<string, Table>, users: map<string, nat>, bizIds: map<nat, string>)

  function TableOf(db: Database, name: string): Table {
    if name in db.tables then db.tables[name] else Table(false, false, [])
  }

  // ---- the lookups ----

  predicate InScope(t: Table, row: ParentRow, scope: Option<nat>) {
    t.hasBusiness && scope.Some? ==> row.business == scope
  }

  /** The id of the first row with that uid, within the business when the table has owners. */
  function FindByUid(t: Table, uid: string, scope: Option<nat>, n: nat): Option<nat>
    requires n <= |t.rows|
    decreases |t.rows| - n
  {
    if n == |t.rows| then None
    else if t.rows[n].uid == Some(uid) && InScope(t, t.rows[n], scope) then Some(t.rows[n].id)
    else FindByUid(t, uid, scope, n + 1)
  }

  predicate HasId(t: Table, id: nat, scope: Option<nat>) {
    exists i :: 0 <= i < |t.rows| && t.rows[i].id == id && InScope(t, t.rows[i], scope)
  }

  // ---- names ----

  function UidAlias(column: string): string {
    column + "_uid"
  }

  predicate EndsInId(column: string) {
    |column| >= 3 && column[|column| - 3..] == "_id"
  }

  /** `customer_id` is also known as `customer_uid`. */
  function BaseAlias(column: string): string
    requires EndsInId(column)
  {
    column[..|column| - 3] + "_uid"
  }

  function BizIdAlias(column: string): string {
    column + "_bizid"
  }

  predicate Contains(s: string, part: string) {
    part <= s || (s != [] && Contains(s[1..], part))
  }

  function Get(data: Data, key: string): Value {
    if key in data then data[key] else Null
  }

  /** None, "" and 0 are all false. */
  predicate Truthy(v: Value) {
    match v
    case Null => false
    case Id(n) => n != 0
    case Text(t) => t != ""
  }

  predicate Blank(v: Value) {
    v == Null || v == Text("")
  }

  /** The parent uid a payload carries for a column: the first alias present decides, even if empty. */
  function CarriedUid(data: Data, column: string): Value {
    if UidAlias(column) in data then data[UidAlias(column)]
    else if EndsInId(column) then Get(data, BaseAlias(column))
    else Null
  }

  // ---- resolving one foreign key ----

  datatype Verdict = Deferred | Applied(data: Data)

  /** A carried uid decides alone: the local parent, or wait for it. */
  function ResolveByUid(db: Database, fk: ForeignKey, data: Data, uid: Value, business: Option<nat>): Verdict {
    var t := TableOf(db, fk.parent);
    if !t.hasUid || !uid.Text? then Deferred
    else
      var id := FindByUid(t, uid.text, business, 0);
      if id.Some? then Applied(data[fk.column := Id(id.value)]) else Deferred
  }

  /** The BizID a payload carries for a column that names a user. */
  function CarriedBizId(data: Data, column: string): Value {
    if Truthy(Get(data, BizIdAlias(column))) then Get(data, BizIdAlias(column))
    else if Contains(column, "seller") then Get(data, "seller_bizid")
    else if Contains(column, "buyer") then Get(data, "buyer_bizid")
    else Null
  }

  /** Users are not synced: they are known by BizID, and left to the caller without one. */
  function ResolveUser(db: Database, fk: ForeignKey, data: Data): Verdict {
    var bizid := CarriedBizId(data, fk.column);
    if !Truthy(bizid) then Applied(data)
    else if !bizid.Text? || bizid.text !in db.users || db.users[bizid.text] == 0 then Deferred
    else
      var linked := data[fk.column := Id(db.users[bizid.text])];
      if Contains(fk.column, "seller") && !Truthy(Get(data, "seller_bizid")) then Applied(linked["seller_bizid" := bizid])
      else if Contains(fk.column, "buyer") && !Truthy(Get(data, "buyer_bizid")) then Applied(linked["buyer_bizid" := bizid])
      else Applied(linked)
  }

  function OwnerOf(data: Data, business: Option<nat>): Option<nat> {
    if business.Some? then business
    else if Get(data, "business_id").Id? then Some(Get(data, "business_id").id) else None
  }

  /** A raw id counts only if it names a local row of the same business; otherwise the link is
      dropped where it may be, and the row waits where it may not. */
  function ResolveRaw(db: Database, fk: ForeignKey, data: Data, business: Option<nat>): Verdict {
    var raw, t := Get(data, fk.column), TableOf(db, fk.parent);
    if raw.Id? && HasId(t, raw.id, OwnerOf(data, business)) then Applied(data)
    else if fk.nullable then Applied(data[fk.column := Null])
    else Deferred
  }

  function ResolveOne(db: Database, fk: ForeignKey, data: Data, business: Option<nat>): Verdict {
    var uid := CarriedUid(data, fk.column);
    if Truthy(uid) then ResolveByUid(db, fk, data, uid, business)
    else if Blank(Get(data, fk.column)) then Applied(data)
    else if fk.parent == USERS then ResolveUser(db, fk, data)
    else ResolveRaw(db, fk, data, business)
  }

  /** All foreign keys in turn; the first that must wait makes the row wait. */
  function Resolve(db: Database, fks: seq<ForeignKey>, data: Data, business: Option<nat>): Verdict {
    if fks == [] then Applied(data)
    else
      var v := ResolveOne(db, fks[0], data, business);
      if v.Deferred? then v else Resolve(db, fks[1..], v.data, business)
  }

  /** A row on its way in; resolution overwrites its foreign keys in place. */
  class IncomingRow {
    var data: Data

    constructor (record: Data)
      ensures data == record
    {
      data := record;
    }

    /** True when the row must be deferred. */
    method ResolveParents(db: Database, fks: seq<ForeignKey>, business: Option<nat>) returns (deferred: bool)
      modifies this
      ensures deferred <==> Resolve(db, fks, old(data), business).Deferred?
      ensures !deferred ==> Resolve(db, fks, old(data), business) == Applied(data)
    {
      var i := 0;
      while i < |fks|
        invariant 0 <= i <= |fks|
        invariant Resolve(db, fks, old(data), business) == Resolve(db, fks[i..], data, business)
      {
        var fk := fks[i];
        var t := TableOf(db, fk.parent);
        var uid := if UidAlias(fk.column) in data then data[UidAlias(fk.column)]
                   else if EndsInId(fk.column) then Get(data, BaseAlias(fk.column)) else Null;
        assert fks[i..][1..] == fks[i + 1..];
        if Truthy(uid) {
          var found := if t.hasUid && uid.Text? then FindByUid(t, uid.text, business, 0) else None;
          if found.None? {
            return true;
          }
          data := data[fk.column := Id(found.value)];
        } else if !Blank(Get(data, fk.column)) {
          var v := if fk.parent == USERS then ResolveUser(db, fk, data) else ResolveRaw(db, fk, data, business);
          if v.Deferred? {
            return true;
          }
          data := v.data;
        }
        i := i + 1;
      }
      return false;
    }
  }

  // ---- sending ----

  const LOCAL_ONLY := {"file_id", "operator_id"}

  function FindRow(t: Table, id: nat, n: nat): Option<ParentRow>
    requires n <= |t.rows|
    decreases |t.rows| - n
  {
    if n == |t.rows| then None else if t.rows[n].id == id then Some(t.rows[n]) else FindRow(t, id, n + 1)
  }

  /** What is added to a serialised row for one foreign key: the parent's uid under both aliases,
      or the BizID of a user. */
  function Enrich(db: Database, fk: ForeignKey, row: Data, d: Data): Data {
    var v := Get(row, fk.column);
    if !v.Id? then d
    else if fk.parent == USERS then
      if v.id in db.bizIds && db.bizIds[v.id] != "" then d[BizIdAlias(fk.column) := Text(db.bizIds[v.id])] else d
    else
      var parent := FindRow(TableOf(db, fk.parent), v.id, 0);
      if !TableOf(db, fk.parent).hasUid || parent.None? || parent.value.uid.None? || parent.value.uid.value == "" then d
      else
        var uid := Text(parent.value.uid.value);
        var d' := d[UidAlias(fk.column) := uid];
        if EndsInId(fk.column) then d'[BaseAlias(fk.column) := uid] else d'
  }

  function EnrichAll(db: Database, fks: seq<ForeignKey>, row: Data, d: Data): Data {
    if fks == [] then d
    else Enrich(db, fks[|fks| - 1], row, EnrichAll(db, fks[..|fks| - 1], row, d))
  }

  function Serialize(db: Database, fks: seq<ForeignKey>, row: Data): Data {
    EnrichAll(db, fks, row, map c | c in row && c !in LOCAL_ONLY :: row[c])
  }
}
