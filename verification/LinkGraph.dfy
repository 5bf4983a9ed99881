/** What resolution guarantees: links are proven local, and the link graph survives the journey. */
module LinkGraph {
  import opened Wrappers
  import opened LinkModel

  /** The keys of a payload that decide one foreign key of a synced parent. */
  function Names(column: string): set<string> {
    {column, UidAlias(column)} + (if EndsInId(column) then {BaseAlias(column)} else {})
  }

  /** The keys for the BizIDs of the two parties, for a column named after one of them. */
  function PartyKeys(column: string): set<string> {
    (if Contains(column, "seller") then {"seller_bizid"} else {}) + (if Contains(column, "buyer") then {"buyer_bizid"} else {})
  }

  /** The keys of a payload that decide one foreign key. */
  function Reads(fk: ForeignKey): set<string> {
    Names(fk.column) + if fk.parent == USERS then {BizIdAlias(fk.column)} + PartyKeys(fk.column) else {}
  }

  /** The keys resolution of one foreign key may overwrite. */
  function Writes(fk: ForeignKey): (names: set<string>)
    ensures names <= Reads(fk)
  {
    {fk.column} + if fk.parent == USERS then PartyKeys(fk.column) else {}
  }

  /** Nothing that decides the link is overwritten for another one. */
  ghost predicate Apart(fks: seq<ForeignKey>, i: nat)
    requires i < |fks|
  {
    forall j :: 0 <= j < |fks| && j != i ==> Reads(fks[i]) !! Writes(fks[j])
  }

  /** No alias of a link is the name, or an alias, of something else that resolution touches. */
  ghost predicate WellNamed(fks: seq<ForeignKey>) {
    forall i :: 0 <= i < |fks| && fks[i].parent != USERS ==> Apart(fks, i)
  }

  /** Nor is a BizID of a link to a user. */
  ghost predicate AllApart(fks: seq<ForeignKey>) {
    forall i :: 0 <= i < |fks| ==> Apart(fks, i)
  }

  ghost predicate SameOn(d: Data, e: Data, names: set<string>) {
    forall x :: x in names ==> (x in d <==> x in e) && Get(d, x) == Get(e, x)
  }

  // ---- one foreign key at a time ----

  lemma OneWritesOnlyItsOwn(db: Database, fk: ForeignKey, data: Data, business: Option<nat>, names: set<string>)
    requires names !! Writes(fk)
    ensures var v := ResolveOne(db, fk, data, business); v.Applied? ==> SameOn(v.data, data, names)
  {
    assert fk.column in Writes(fk);
    var uid := CarriedUid(data, fk.column);
    if !Truthy(uid) && !Blank(Get(data, fk.column)) && fk.parent == USERS {
      UserWritesOnlyItsOwn(db, fk, data, names);
    }
  }

  lemma UserWritesOnlyItsOwn(db: Database, fk: ForeignKey, data: Data, names: set<string>)
    requires fk.parent == USERS && names !! Writes(fk)
    ensures var v := ResolveUser(db, fk, data); v.Applied? ==> SameOn(v.data, data, names)
  {
    assert fk.column in Writes(fk);
    var seller, buyer := Contains(fk.column, "seller"), Contains(fk.column, "buyer");
    assert seller ==> "seller_bizid" in PartyKeys(fk.column) && "seller_bizid" !in names;
    assert buyer ==> "buyer_bizid" in PartyKeys(fk.column) && "buyer_bizid" !in names;
    assert fk.column !in names;
  }

  lemma UserReadsOnlyItsNames(db: Database, fk: ForeignKey, d: Data, e: Data)
    requires fk.parent == USERS && SameOn(d, e, Reads(fk))
    ensures var v, w := ResolveUser(db, fk, d), ResolveUser(db, fk, e);
            && v.Deferred? == w.Deferred?
            && (v.Applied? ==> SameOn(v.data, w.data, Writes(fk)))
  {
    SamePartiesSameBizId(d, e, fk);
  }

  lemma OneReadsOnlyItsNames(db: Database, fk: ForeignKey, d: Data, e: Data, b: nat)
    requires SameOn(d, e, Reads(fk))
    ensures var v, w := ResolveOne(db, fk, d, Some(b)), ResolveOne(db, fk, e, Some(b));
            && v.Deferred? == w.Deferred?
            && (v.Applied? ==> SameOn(v.data, w.data, Writes(fk)))
  {
    assert SameOn(d, e, Names(fk.column));
    SameNamesSameUid(d, e, fk.column);
    assert fk.column in Names(fk.column);
    assert Get(d, fk.column) == Get(e, fk.column);
    if fk.parent == USERS {
      UserReadsOnlyItsNames(db, fk, d, e);
    }
  }

  lemma SameNamesSameUid(d: Data, e: Data, column: string)
    requires SameOn(d, e, Names(column))
    ensures CarriedUid(d, column) == CarriedUid(e, column)
  {
    assert UidAlias(column) in Names(column);
    assert EndsInId(column) ==> BaseAlias(column) in Names(column);
  }

  lemma SamePartiesSameBizId(d: Data, e: Data, fk: ForeignKey)
    requires fk.parent == USERS && SameOn(d, e, Reads(fk))
    ensures CarriedBizId(d, fk.column) == CarriedBizId(e, fk.column)
    ensures Contains(fk.column, "seller") ==> Get(d, "seller_bizid") == Get(e, "seller_bizid")
    ensures Contains(fk.column, "buyer") ==> Get(d, "buyer_bizid") == Get(e, "buyer_bizid")
  {
    assert BizIdAlias(fk.column) in Reads(fk);
    assert Contains(fk.column, "seller") ==> "seller_bizid" in Reads(fk);
    assert Contains(fk.column, "buyer") ==> "buyer_bizid" in Reads(fk);
  }

  lemma ApartFromTheRest(fks: seq<ForeignKey>, i: nat)
    requires 0 < i < |fks| && Apart(fks, i)
    ensures fks[1..][i - 1] == fks[i] && Apart(fks[1..], i - 1) && Reads(fks[i]) !! Writes(fks[0])
  {
    var rest := fks[1..];
    assert rest[i - 1] == fks[i];
    assert forall j :: 0 <= j < |rest| ==> rest[j] == fks[j + 1];
  }

  /** When a row is applied, each link got the value it would have got alone, from the payload as
      it arrived; the order in which the links are visited plays no part. */
  lemma {:induction false} EachLinkIsResolvedAlone(db: Database, fks: seq<ForeignKey>, data: Data, b: nat, i: nat)
    requires i < |fks| && Apart(fks, i)
    requires Resolve(db, fks, data, Some(b)).Applied?
    ensures var alone := ResolveOne(db, fks[i], data, Some(b));
            alone.Applied? && SameOn(alone.data, Resolve(db, fks, data, Some(b)).data, Writes(fks[i]))
            && Get(alone.data, fks[i].column) == Get(Resolve(db, fks, data, Some(b)).data, fks[i].column)
    decreases |fks|
  {
    var first := ResolveOne(db, fks[0], data, Some(b));
    var rest := fks[1..];
    assert fks[i].column in Writes(fks[i]);
    if i == 0 {
      OthersLeaveItAlone(db, rest, first.data, Some(b), Writes(fks[0]));
    } else {
      ApartFromTheRest(fks, i);
      OneWritesOnlyItsOwn(db, fks[0], data, Some(b), Reads(fks[i]));
      EachLinkIsResolvedAlone(db, rest, first.data, b, i - 1);
      OneReadsOnlyItsNames(db, fks[i], first.data, data, b);
    }
  }

  lemma {:induction false} OthersLeaveItAlone(db: Database, fks: seq<ForeignKey>, data: Data, business: Option<nat>, names: set<string>)
    requires forall j :: 0 <= j < |fks| ==> names !! Writes(fks[j])
    ensures var v := Resolve(db, fks, data, business); v.Applied? ==> SameOn(v.data, data, names)
    decreases |fks|
  {
    if fks != [] {
      OneWritesOnlyItsOwn(db, fks[0], data, business, names);
      var v := ResolveOne(db, fks[0], data, business);
      if v.Applied? {
        OthersLeaveItAlone(db, fks[1..], v.data, business, names);
      }
    }
  }

  lemma RestIsApart(fks: seq<ForeignKey>)
    requires fks != [] && AllApart(fks)
    ensures AllApart(fks[1..])
  {
    forall i | 0 <= i < |fks[1..]|
      ensures Apart(fks[1..], i)
    {
      ApartFromTheRest(fks, i + 1);
    }
  }

  /** A row waits exactly when one of its links, taken alone, must wait. */
  lemma {:induction false} WaitsExactlyForSomeLink(db: Database, fks: seq<ForeignKey>, data: Data, b: nat)
    requires AllApart(fks)
    ensures Resolve(db, fks, data, Some(b)).Deferred? <==>
            exists i :: 0 <= i < |fks| && ResolveOne(db, fks[i], data, Some(b)).Deferred?
    decreases |fks|
  {
    if fks != [] {
      var first := ResolveOne(db, fks[0], data, Some(b));
      if first.Applied? {
        var rest := fks[1..];
        RestIsApart(fks);
        WaitsExactlyForSomeLink(db, rest, first.data, b);
        forall i | 0 <= i < |rest|
          ensures ResolveOne(db, rest[i], first.data, Some(b)).Deferred? == ResolveOne(db, fks[i + 1], data, Some(b)).Deferred?
        {
          ApartFromTheRest(fks, i + 1);
          OneWritesOnlyItsOwn(db, fks[0], data, Some(b), Reads(fks[i + 1]));
          OneReadsOnlyItsNames(db, fks[i + 1], first.data, data, b);
        }
        if Resolve(db, fks, data, Some(b)).Deferred? {
          var i :| 0 <= i < |rest| && ResolveOne(db, rest[i], first.data, Some(b)).Deferred?;
          assert ResolveOne(db, fks[i + 1], data, Some(b)).Deferred?;
        }
        if j :| 0 <= j < |fks| && ResolveOne(db, fks[j], data, Some(b)).Deferred? {
          assert ResolveOne(db, rest[j - 1], first.data, Some(b)).Deferred?;
        }
      }
    }
  }

  /** The links of a table come as a set: any order of visiting them gives the same verdict and,
      when the row is applied, the same row. */
  lemma VisitingOrderIsIrrelevant(db: Database, fks: seq<ForeignKey>, others: seq<ForeignKey>, data: Data, b: nat)
    requires AllApart(fks) && AllApart(others) && forall fk :: fk in fks <==> fk in others
    ensures var v, w := Resolve(db, fks, data, Some(b)), Resolve(db, others, data, Some(b));
            && v.Deferred? == w.Deferred?
            && (v.Applied? ==> forall x :: Get(v.data, x) == Get(w.data, x))
  {
    WaitsExactlyForSomeLink(db, fks, data, b);
    WaitsExactlyForSomeLink(db, others, data, b);
    var v, w := Resolve(db, fks, data, Some(b)), Resolve(db, others, data, Some(b));
    if v.Deferred? {
      var i :| 0 <= i < |fks| && ResolveOne(db, fks[i], data, Some(b)).Deferred?;
      assert fks[i] in others;
    }
    if w.Deferred? {
      var i :| 0 <= i < |others| && ResolveOne(db, others[i], data, Some(b)).Deferred?;
      assert others[i] in fks;
    }
    if v.Applied? {
      forall x
        ensures Get(v.data, x) == Get(w.data, x)
      {
        SameAtAnyKey(db, fks, others, data, b, x);
      }
    }
  }

  lemma SameAtAnyKey(db: Database, fks: seq<ForeignKey>, others: seq<ForeignKey>, data: Data, b: nat, x: string)
    requires AllApart(fks) && AllApart(others) && forall fk :: fk in fks <==> fk in others
    requires Resolve(db, fks, data, Some(b)).Applied? && Resolve(db, others, data, Some(b)).Applied?
    ensures Get(Resolve(db, fks, data, Some(b)).data, x) == Get(Resolve(db, others, data, Some(b)).data, x)
  {
    if i :| 0 <= i < |fks| && x in Writes(fks[i]) {
      assert fks[i] in others;
      var j :| 0 <= j < |others| && others[j] == fks[i];
      EachLinkIsResolvedAlone(db, fks, data, b, i);
      EachLinkIsResolvedAlone(db, others, data, b, j);
    } else {
      forall j | 0 <= j < |others| ensures x !in Writes(others[j]) {
        assert others[j] in fks;
      }
      OthersLeaveItAlone(db, fks, data, Some(b), {x});
      OthersLeaveItAlone(db, others, data, Some(b), {x});
      assert x in {x};
    }
  }

  // ---- proven local ----

  /** The local row `id` of the parent table, of the business where the table has owners. */
  ghost predicate LocalParent(db: Database, parent: string, id: nat, business: Option<nat>, row: ParentRow) {
    row in TableOf(db, parent).rows && row.id == id && InScope(TableOf(db, parent), row, business)
  }

  lemma {:induction false} FindByUidIsRight(t: Table, uid: string, scope: Option<nat>, n: nat)
    requires n <= |t.rows|
    ensures var found := FindByUid(t, uid, scope, n);
            if found.Some? then exists row :: row in t.rows && row.uid == Some(uid) && row.id == found.value && InScope(t, row, scope)
            else forall i :: n <= i < |t.rows| ==> !(t.rows[i].uid == Some(uid) && InScope(t, t.rows[i], scope))
    decreases |t.rows| - n
  {
    if n < |t.rows| {
      FindByUidIsRight(t, uid, scope, n + 1);
    }
  }

  /** Whenever a row is applied for a business, each of its links to a synced table is blank or
      names a local row of that business, whether it came as a uid or as a bare id; and a link
      that may not be NULL is never blanked. */
  lemma AppliedLinksAreProvenLocal(db: Database, fks: seq<ForeignKey>, data: Data, b: nat, i: nat)
    requires WellNamed(fks) && i < |fks| && fks[i].parent != USERS
    requires Resolve(db, fks, data, Some(b)).Applied?
    ensures var fk, v := fks[i], Get(Resolve(db, fks, data, Some(b)).data, fks[i].column);
            && (Blank(v) || (v.Id? && exists row :: LocalParent(db, fk.parent, v.id, Some(b), row)))
            && (!fk.nullable && !Blank(Get(data, fk.column)) ==> !Blank(v))
  {
    EachLinkIsResolvedAlone(db, fks, data, b, i);
    OneLinkIsProvenLocal(db, fks[i], data, Some(b));
  }

  lemma OneLinkIsProvenLocal(db: Database, fk: ForeignKey, data: Data, business: Option<nat>)
    requires fk.parent != USERS && ResolveOne(db, fk, data, business).Applied?
    ensures var v := Get(ResolveOne(db, fk, data, business).data, fk.column);
            var scope := if Truthy(CarriedUid(data, fk.column)) then business else OwnerOf(data, business);
            && (Blank(v) || (v.Id? && exists row :: LocalParent(db, fk.parent, v.id, scope, row)))
            && (!fk.nullable && !Blank(Get(data, fk.column)) ==> !Blank(v))
  {
    var uid, t := CarriedUid(data, fk.column), TableOf(db, fk.parent);
    var v := Get(ResolveOne(db, fk, data, business).data, fk.column);
    if Truthy(uid) {
      FindByUidIsRight(t, uid.text, business, 0);
      var row :| row in t.rows && row.uid == Some(uid.text) && Id(row.id) == v && InScope(t, row, business);
      assert LocalParent(db, fk.parent, v.id, business, row);
    } else if !Blank(v) {
      var scope := OwnerOf(data, business);
      var j :| 0 <= j < |t.rows| && t.rows[j].id == v.id && InScope(t, t.rows[j], scope);
      assert LocalParent(db, fk.parent, v.id, scope, t.rows[j]);
    }
  }

  // ---- the journey ----

  /** The columns of a table never look like aliases of its links. */
  ghost predicate NoAliasColumns(fks: seq<ForeignKey>, row: Data) {
    && (forall i :: 0 <= i < |fks| ==> fks[i].column !in LOCAL_ONLY)
    && (forall i, x :: 0 <= i < |fks| && x in Names(fks[i].column) && x != fks[i].column ==> x !in row)
  }

  /** Aliases of different links differ from each other and from BizID keys. */
  ghost predicate DistinctAliases(fks: seq<ForeignKey>) {
    && (forall i, j :: 0 <= i < j < |fks| ==> Names(fks[i].column) !! Names(fks[j].column))
    && (forall i, j :: 0 <= i < |fks| && 0 <= j < |fks| ==> BizIdAlias(fks[j].column) !in Names(fks[i].column))
  }

  /** The uid a database knows a parent by. */
  function ParentUid(db: Database, parent: string, id: nat): Option<string> {
    var row := FindRow(TableOf(db, parent), id, 0);
    if !TableOf(db, parent).hasUid || row.None? || row.value.uid.None? || row.value.uid.value == "" then None
    else row.value.uid
  }

  /** The uid value that travels with a link. */
  function CarriesUidOf(db: Database, fk: ForeignKey, v: Value): Value {
    if v.Id? && ParentUid(db, fk.parent, v.id).Some? then Text(ParentUid(db, fk.parent, v.id).value) else Null
  }

  lemma AliasesDiffer(column: string)
    ensures UidAlias(column) != column
    ensures EndsInId(column) ==> BaseAlias(column) != column && BaseAlias(column) != UidAlias(column)
  {
    assert |UidAlias(column)| == |column| + 4;
    if EndsInId(column) {
      assert |BaseAlias(column)| == |column| + 1;
    }
  }

  lemma EnrichingOthersChangesNothing(db: Database, other: ForeignKey, row: Data, d: Data, names: set<string>)
    requires Names(other.column) !! names && BizIdAlias(other.column) !in names
    ensures SameOn(Enrich(db, other, row, d), d, names)
  {
    var d' := Enrich(db, other, row, d);
    assert UidAlias(other.column) in Names(other.column);
    assert EndsInId(other.column) ==> BaseAlias(other.column) in Names(other.column);
    forall x | x in names
      ensures x != UidAlias(other.column) && x != BizIdAlias(other.column) && (EndsInId(other.column) ==> x != BaseAlias(other.column))
    {
      assert x !in Names(other.column);
    }
  }

  lemma EnrichingCarriesTheUid(db: Database, fk: ForeignKey, row: Data, d: Data)
    requires fk.parent != USERS && SameOn(d, row, Names(fk.column))
    requires forall x :: x in Names(fk.column) && x != fk.column ==> x !in row
    ensures Get(Enrich(db, fk, row, d), fk.column) == Get(row, fk.column)
    ensures CarriedUid(Enrich(db, fk, row, d), fk.column) == CarriesUidOf(db, fk, Get(row, fk.column))
  {
    AliasesDiffer(fk.column);
    assert fk.column in Names(fk.column) && UidAlias(fk.column) in Names(fk.column);
    assert EndsInId(fk.column) ==> BaseAlias(fk.column) in Names(fk.column);
  }

  /** Serialising keeps a column and carries the parent's uid exactly when there is one. */
  lemma {:induction false} SerialisedLink(db: Database, fks: seq<ForeignKey>, row: Data, columns: Data, i: nat, n: nat)
    requires DistinctAliases(fks) && NoAliasColumns(fks, row) && i < |fks| && n <= |fks| && fks[i].parent != USERS
    requires SameOn(columns, row, Names(fks[i].column))
    ensures var d, fk := EnrichAll(db, fks[..n], row, columns), fks[i];
            if i < n then Get(d, fk.column) == Get(row, fk.column) && CarriedUid(d, fk.column) == CarriesUidOf(db, fk, Get(row, fk.column))
            else SameOn(d, row, Names(fk.column))
  {
    var fk := fks[i];
    if n > 0 {
      var before := EnrichAll(db, fks[..n - 1], row, columns);
      assert fks[..n][..n - 1] == fks[..n - 1];
      SerialisedLink(db, fks, row, columns, i, n - 1);
      if n - 1 == i {
        EnrichingCarriesTheUid(db, fk, row, before);
      } else {
        EnrichingOthersChangesNothing(db, fks[n - 1], row, before, Names(fk.column));
        SameNamesSameUid(Enrich(db, fks[n - 1], row, before), before, fk.column);
        assert fk.column in Names(fk.column);
      }
    }
  }

  /** The link graph survives a change of numbering: a row serialised in one database and applied
      in another has each link NULL exactly where it was NULL, and otherwise pointing at the local
      row with the same parent uid, of the receiving business where the parent has owners.  What
      the caller re-pins in between may change anything but the links and their aliases. */
  lemma LinkGraphSurvives(src: Database, dst: Database, fks: seq<ForeignKey>, row: Data, sent: Data, b: nat, i: nat)
    requires DistinctAliases(fks) && NoAliasColumns(fks, row) && WellNamed(fks)
    requires i < |fks| && fks[i].parent != USERS
    requires SameOn(sent, Serialize(src, fks, row), Names(fks[i].column))
    requires Get(row, fks[i].column) == Null ||
             (Get(row, fks[i].column).Id? && ParentUid(src, fks[i].parent, Get(row, fks[i].column).id).Some?)
    requires Resolve(dst, fks, sent, Some(b)).Applied?
    ensures var before, after := Get(row, fks[i].column), Get(Resolve(dst, fks, sent, Some(b)).data, fks[i].column);
            && (before == Null <==> after == Null)
            && (before.Id? ==> after.Id? && exists p ::
                  LocalParent(dst, fks[i].parent, after.id, Some(b), p) && p.uid == ParentUid(src, fks[i].parent, before.id))
  {
    var fk := fks[i];
    var columns := map c | c in row && c !in LOCAL_ONLY :: row[c];
    assert SameOn(columns, row, Names(fk.column)) by {
      assert forall x :: x in Names(fk.column) && x in row ==> x == fk.column;
    }
    SerialisedLink(src, fks, row, columns, i, |fks|);
    assert fks[..|fks|] == fks;
    EachLinkIsResolvedAlone(dst, fks, sent, b, i);
    var before := Get(row, fk.column);
    if before.Id? {
      var uid := ParentUid(src, fk.parent, before.id).value;
      assert CarriedUid(sent, fk.column) == Text(uid);
      FindByUidIsRight(TableOf(dst, fk.parent), uid, Some(b), 0);
      var p :| p in TableOf(dst, fk.parent).rows && p.uid == Some(uid)
               && Id(p.id) == Get(ResolveOne(dst, fk, sent, Some(b)).data, fk.column) && InScope(TableOf(dst, fk.parent), p, Some(b));
      assert LocalParent(dst, fk.parent, p.id, Some(b), p);
    }
  }
}
