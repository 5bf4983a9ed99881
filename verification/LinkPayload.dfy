/** What a serialised row carries, and the journey of a link to a user. */
module LinkPayload {
  import opened Wrappers
  import opened LinkModel
  import opened LinkGraph
  import opened LinkRules

  /** The keys under which the identity of a link's parent travels. */
  function Aliases(fk: ForeignKey): set<string> {
    if fk.parent == USERS then {fk.column + "_bizid"}
    else {fk.column + "_uid"} + if EndsInId(fk.column) then {fk.column[..|fk.column| - 3] + "_uid"} else {}
  }

  ghost predicate IsAlias(fks: seq<ForeignKey>, key: string) {
    exists i :: 0 <= i < |fks| && key in Aliases(fks[i])
  }

  /** The aliases of a link are no columns of the row, and no aliases of another link. */
  ghost predicate OwnAliases(fks: seq<ForeignKey>, row: Data, i: nat)
    requires i < |fks|
  {
    && (forall key :: key in Aliases(fks[i]) ==> key !in row)
    && forall j :: 0 <= j < |fks| && j != i ==> Aliases(fks[i]) !! Aliases(fks[j])
  }

  /** The row of that id, the first if there are more, has that uid. */
  ghost predicate HasUid(t: Table, id: nat, uid: string) {
    exists k :: 0 <= k < |t.rows| && t.rows[k].id == id && t.rows[k].uid == Some(uid) && forall j :: 0 <= j < k ==> t.rows[j].id != id
  }

  /** What identifies the parent of a link: the BizID of a user, the uid of any other row. */
  ghost predicate Identity(db: Database, fk: ForeignKey, row: Data, name: string) {
    && name != "" && Get(row, fk.column).Id?
    && if fk.parent == USERS then Get(row, fk.column).id in db.bizIds && db.bizIds[Get(row, fk.column).id] == name
       else TableOf(db, fk.parent).hasUid && HasUid(TableOf(db, fk.parent), Get(row, fk.column).id, name)
  }

  /** The payload of a row: every column that is not local to the database, as it is; beside these only
      aliases; and under each alias of a link what identifies its parent, if anything does. */
  ghost predicate IsPayload(db: Database, fks: seq<ForeignKey>, row: Data, d: Data) {
    && (forall c :: c in row && c != "file_id" && c != "operator_id" && !IsAlias(fks, c) ==> At(d, c, row[c]))
    && (forall c :: c in d && !IsAlias(fks, c) ==> c in row && c != "file_id" && c != "operator_id")
    && forall i, key :: 0 <= i < |fks| && OwnAliases(fks, row, i) && key in Aliases(fks[i]) ==>
         && (forall name :: Identity(db, fks[i], row, name) ==> At(d, key, Text(name)))
         && (key in d ==> exists name :: Identity(db, fks[i], row, name))
  }

  // ---- serialising gives the payload ----

  lemma {:induction false} FindRowIsFirst(t: Table, id: nat, n: nat)
    requires n <= |t.rows| && forall j :: 0 <= j < n ==> t.rows[j].id != id
    ensures var found := FindRow(t, id, n);
            && (found.None? ==> forall k :: 0 <= k < |t.rows| ==> t.rows[k].id != id)
            && (found.Some? ==> exists k :: 0 <= k < |t.rows| && t.rows[k] == found.value && t.rows[k].id == id
                                            && forall j :: 0 <= j < k ==> t.rows[j].id != id)
    decreases |t.rows| - n
  {
    if n < |t.rows| && t.rows[n].id != id {
      FindRowIsFirst(t, id, n + 1);
    }
  }

  lemma EnrichingAddsTheIdentity(db: Database, fk: ForeignKey, row: Data, d: Data)
    ensures var d' := Enrich(db, fk, row, d);
            && (forall key :: key !in Aliases(fk) ==> (key in d' <==> key in d) && Get(d', key) == Get(d, key))
            && ((forall name :: !Identity(db, fk, row, name)) ==> d' == d)
            && forall name, key :: Identity(db, fk, row, name) && key in Aliases(fk) ==> At(d', key, Text(name))
  {
    var v, t := Get(row, fk.column), TableOf(db, fk.parent);
    if v.Id? && fk.parent != USERS {
      FindRowIsFirst(t, v.id, 0);
      var found := FindRow(t, v.id, 0);
      if found.Some? && found.value.uid.Some? && t.hasUid && found.value.uid.value != "" {
        assert Identity(db, fk, row, found.value.uid.value);
      }
      forall name | Identity(db, fk, row, name)
        ensures found.Some? && found.value.uid == Some(name)
      {
        var k :| 0 <= k < |t.rows| && t.rows[k].id == v.id && t.rows[k].uid == Some(name) && forall j :: 0 <= j < k ==> t.rows[j].id != v.id;
        var l :| 0 <= l < |t.rows| && t.rows[l] == found.value && t.rows[l].id == v.id && forall j :: 0 <= j < l ==> t.rows[j].id != v.id;
        assert k == l;
      }
    } else if v.Id? && v.id in db.bizIds && db.bizIds[v.id] != "" {
      assert Identity(db, fk, row, db.bizIds[v.id]);
    }
  }

  lemma {:induction false} OnlyAliasesAreAdded(db: Database, fks: seq<ForeignKey>, row: Data, columns: Data, key: string)
    requires !IsAlias(fks, key)
    ensures var d := EnrichAll(db, fks, row, columns); (key in d <==> key in columns) && Get(d, key) == Get(columns, key)
  {
    if fks != [] {
      var front, fk := fks[..|fks| - 1], fks[|fks| - 1];
      assert forall i :: 0 <= i < |front| ==> front[i] == fks[i];
      OnlyAliasesAreAdded(db, front, row, columns, key);
      EnrichingAddsTheIdentity(db, fk, row, EnrichAll(db, front, row, columns));
    }
  }

  /** What is under an alias of the `i`th link once `n` links have been enriched. */
  lemma {:induction false} AliasesOfOne(db: Database, fks: seq<ForeignKey>, row: Data, columns: Data, i: nat, n: nat, key: string)
    requires i < |fks| && n <= |fks| && OwnAliases(fks, row, i) && key in Aliases(fks[i]) && key !in columns
    ensures var d := EnrichAll(db, fks[..n], row, columns);
            && (n <= i ==> key !in d)
            && (i < n ==> (forall name :: Identity(db, fks[i], row, name) ==> At(d, key, Text(name)))
                          && ((forall name :: !Identity(db, fks[i], row, name)) ==> key !in d))
  {
    if n > 0 {
      assert fks[..n][..n - 1] == fks[..n - 1];
      AliasesOfOne(db, fks, row, columns, i, n - 1, key);
      EnrichingAddsTheIdentity(db, fks[n - 1], row, EnrichAll(db, fks[..n - 1], row, columns));
    }
  }

  lemma SerializeIsPayload(db: Database, fks: seq<ForeignKey>, row: Data)
    ensures IsPayload(db, fks, row, Serialize(db, fks, row))
  {
    var columns := map c | c in row && c !in LOCAL_ONLY :: row[c];
    var d := Serialize(db, fks, row);
    forall key | !IsAlias(fks, key)
      ensures (key in d <==> key in columns) && Get(d, key) == Get(columns, key)
    {
      OnlyAliasesAreAdded(db, fks, row, columns, key);
    }
    forall i, key | 0 <= i < |fks| && OwnAliases(fks, row, i) && key in Aliases(fks[i])
      ensures forall name :: Identity(db, fks[i], row, name) ==> At(d, key, Text(name))
      ensures key in d ==> exists name :: Identity(db, fks[i], row, name)
    {
      AliasesOfOne(db, fks, row, columns, i, |fks|, key);
      assert fks[..|fks|] == fks;
    }
  }

  method SerializeRow(db: Database, fks: seq<ForeignKey>, row: Data) returns (d: Data)
    ensures d == Serialize(db, fks, row)
    ensures IsPayload(db, fks, row, d)
  {
    d := map c | c in row && c !in LOCAL_ONLY :: row[c];
    ghost var columns := d;
    var i := 0;
    while i < |fks|
      invariant 0 <= i <= |fks| && d == EnrichAll(db, fks[..i], row, columns)
    {
      assert fks[..i + 1][..i] == fks[..i];
      d := Enrich(db, fks[i], row, d);
      i := i + 1;
    }
    assert fks[..i] == fks;
    SerializeIsPayload(db, fks, row);
  }

  // ---- the journey of a link to a user ----

  /** Whoever a BizID resolves to has that BizID. */
  ghost predicate KnownByBizId(db: Database) {
    forall z :: z in db.users && db.users[z] != 0 ==> db.users[z] in db.bizIds && db.bizIds[db.users[z]] == z
  }

  /** A link to a user who has a BizID, serialised in one database and accepted in another, is a link to the
      user with the same BizID there, whatever their numbers are. */
  lemma UserLinkSurvives(src: Database, dst: Database, fks: seq<ForeignKey>, row: Data, d: Data, sent: Data, b: nat, i: nat)
    requires i < |fks| && fks[i].parent == USERS && Apart(fks, i) && NoPartyKey(fks[i]) && OwnAliases(fks, row, i)
    requires IsPayload(src, fks, row, d) && SameOn(sent, d, Reads(fks[i]))
    requires !IsAlias(fks, fks[i].column) && fks[i].column != "file_id" && fks[i].column != "operator_id" && NoUid(sent, fks[i].column)
    requires Get(row, fks[i].column).Id? && Get(row, fks[i].column).id in src.bizIds && src.bizIds[Get(row, fks[i].column).id] != ""
    requires KnownByBizId(dst) && Resolve(dst, fks, sent, Some(b)).Applied?
    ensures var before, after := Get(row, fks[i].column), Get(Resolve(dst, fks, sent, Some(b)).data, fks[i].column);
            after.Id? && after.id in dst.bizIds && dst.bizIds[after.id] == src.bizIds[before.id]
  {
    var fk, z := fks[i], src.bizIds[Get(row, fks[i].column).id];
    BizIdTravels(src, fks, row, d, sent, i, z);
    OwnBizIdDecides(sent, fk.column, z);
    UserLinkBecomes(dst, fks, sent, b, i, Text(z));
  }

  lemma BizIdTravels(src: Database, fks: seq<ForeignKey>, row: Data, d: Data, sent: Data, i: nat, z: string)
    requires i < |fks| && fks[i].parent == USERS && OwnAliases(fks, row, i) && Identity(src, fks[i], row, z)
    requires IsPayload(src, fks, row, d) && SameOn(sent, d, Reads(fks[i]))
    requires !IsAlias(fks, fks[i].column) && fks[i].column != "file_id" && fks[i].column != "operator_id"
    ensures At(sent, fks[i].column + "_bizid", Text(z)) && At(sent, fks[i].column, Get(row, fks[i].column))
  {
    var fk := fks[i];
    assert fk.column + "_bizid" in Aliases(fk);
    assert BizIdAlias(fk.column) in Reads(fk) && fk.column in Reads(fk);
    assert At(d, fk.column, row[fk.column]) && At(d, fk.column + "_bizid", Text(z));
  }

  lemma OwnBizIdDecides(sent: Data, column: string, z: string)
    requires z != "" && At(sent, column + "_bizid", Text(z))
    ensures BizIdGiven(sent, column, Text(z))
  {
  }
}
