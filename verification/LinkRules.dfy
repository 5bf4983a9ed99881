/** The rules of resolution in terms of the payload and the receiving database alone: which row waits, and what
    each link becomes; and the journey of links to users, who are known by BizID. */
module LinkRules {
  import opened Wrappers
  import opened LinkModel
  import opened LinkGraph

  predicate At(data: Data, key: string, v: Value) {
    key in data && data[key] == v
  }

  predicate Within(s: string, part: string, i: nat) {
    i + |part| <= |s| && s[i..i + |part|] == part
  }

  lemma {:induction false} ContainsIff(s: string, part: string)
    ensures Contains(s, part) <==> exists i: nat :: Within(s, part, i)
  {
    if part <= s {
      assert Within(s, part, 0);
    } else if s != [] {
      ContainsIff(s[1..], part);
      if i: nat :| Within(s[1..], part, i) {
        assert Within(s, part, i + 1);
      }
      if i: nat :| Within(s, part, i) {
        assert i > 0;
        assert Within(s[1..], part, i - 1);
      }
    }
  }

  /** The column is named after that party. */
  ghost predicate NamedAfter(column: string, party: string) {
    exists i: nat :: Within(column, party, i)
  }

  /** There is a value. */
  predicate Given(v: Value) {
    match v
    case Null => false
    case Id(n) => n > 0
    case Text(t) => |t| > 0
  }

  /** The payload has a uid for the column: under `<column>_uid`, or without that key under the column's
      name with `_uid` in place of `_id`. */
  ghost predicate UidGiven(data: Data, column: string, v: Value) {
    && Given(v)
    && (At(data, column + "_uid", v)
        || (column + "_uid" !in data && exists base :: column == base + "_id" && At(data, base + "_uid", v)))
  }

  ghost predicate NoUid(data: Data, column: string) {
    forall v :: !UidGiven(data, column, v)
  }

  /** The BizID that decides a link to a user: its own, or else that of the party the column is named
      after, the seller before the buyer. */
  ghost predicate BizIdGiven(data: Data, column: string, v: Value) {
    && Given(v)
    && if exists own :: Given(own) && At(data, column + "_bizid", own) then At(data, column + "_bizid", v)
       else if NamedAfter(column, "seller") then At(data, "seller_bizid", v)
       else NamedAfter(column, "buyer") && At(data, "buyer_bizid", v)
  }

  ghost predicate NoBizId(data: Data, column: string) {
    forall v :: !BizIdGiven(data, column, v)
  }

  /** The BizID is that of somebody here. */
  predicate Known(db: Database, bizid: Value) {
    bizid.Text? && bizid.text in db.users && db.users[bizid.text] != 0
  }

  /** The business whose rows a bare id may name: the one that is syncing, else the row's own. */
  function Owner(data: Data, b: Option<nat>): Option<nat> {
    if b.None? && "business_id" in data && data["business_id"].Id? then Some(data["business_id"].id) else b
  }

  /** A row of the parent's table with that uid, of the business where the table has owners. */
  ghost predicate ParentByUid(db: Database, parent: string, uid: Value, b: Option<nat>, p: ParentRow) {
    var t := TableOf(db, parent);
    t.hasUid && uid.Text? && p in t.rows && p.uid == Some(uid.text) && (t.hasBusiness && b.Some? ==> p.business == b)
  }

  ghost predicate ParentById(db: Database, parent: string, id: Value, b: Option<nat>, p: ParentRow) {
    var t := TableOf(db, parent);
    id.Id? && p in t.rows && p.id == id.id && (t.hasBusiness && b.Some? ==> p.business == b)
  }

  /** A link waits for the parent its uid names, for the user its BizID names, and, where it cannot be
      dropped, for a parent of its bare id. */
  ghost predicate Waits(db: Database, fk: ForeignKey, data: Data, b: Option<nat>) {
    || (exists uid :: UidGiven(data, fk.column, uid) && forall p :: !ParentByUid(db, fk.parent, uid, b, p))
    || (NoUid(data, fk.column) && !Blank(Get(data, fk.column)) &&
        if fk.parent == USERS then exists z :: BizIdGiven(data, fk.column, z) && !Known(db, z)
        else !fk.nullable && forall p :: !ParentById(db, fk.parent, Get(data, fk.column), Owner(data, b), p))
  }

  /** What an accepted link becomes: the parent of its uid; else blank if it was; else the user of its
      BizID, or what it was without one; else what it was if that is a parent here, or NULL. */
  ghost predicate Becomes(db: Database, fk: ForeignKey, data: Data, b: Option<nat>, v: Value) {
    var raw := Get(data, fk.column);
    && (forall uid :: UidGiven(data, fk.column, uid) ==> exists p :: ParentByUid(db, fk.parent, uid, b, p) && v == Id(p.id))
    && (NoUid(data, fk.column) ==>
          && (Blank(raw) ==> v == raw)
          && (!Blank(raw) && fk.parent == USERS ==>
                && (forall z :: BizIdGiven(data, fk.column, z) ==> Known(db, z) && v == Id(db.users[z.text]))
                && (NoBizId(data, fk.column) ==> v == raw))
          && (!Blank(raw) && fk.parent != USERS ==>
                v == if exists p :: ParentById(db, fk.parent, raw, Owner(data, b), p) then raw else Null))
  }

  /** No link is kept under the key of a party's BizID. */
  predicate NoPartyKey(fk: ForeignKey) {
    fk.column != "seller_bizid" && fk.column != "buyer_bizid"
  }

  // ---- the rules hold ----

  lemma UidIsCarried(data: Data, column: string)
    ensures forall v :: UidGiven(data, column, v) <==> Given(v) && v == CarriedUid(data, column)
  {
    assert EndsInId(column) ==> column == column[..|column| - 3] + "_id";
    forall base | column == base + "_id"
      ensures EndsInId(column) && BaseAlias(column) == base + "_uid"
    {
      assert column[..|column| - 3] == base;
    }
  }

  lemma BizIdIsCarried(data: Data, column: string)
    ensures forall v :: BizIdGiven(data, column, v) <==> Given(v) && v == CarriedBizId(data, column)
  {
    ContainsIff(column, "seller");
    ContainsIff(column, "buyer");
    var own := Get(data, column + "_bizid");
    assert Given(own) == Truthy(own);
  }

  lemma UserAlone(db: Database, fk: ForeignKey, data: Data, b: Option<nat>)
    requires fk.parent == USERS && NoUid(data, fk.column) && NoPartyKey(fk)
    ensures var v := ResolveOne(db, fk, data, b);
            && (v.Deferred? <==> Waits(db, fk, data, b))
            && (v.Applied? ==> Becomes(db, fk, data, b, Get(v.data, fk.column)))
  {
    UidIsCarried(data, fk.column);
    BizIdIsCarried(data, fk.column);
    assert !Truthy(CarriedUid(data, fk.column)) by {
      assert !UidGiven(data, fk.column, CarriedUid(data, fk.column));
    }
    var z := CarriedBizId(data, fk.column);
    assert Truthy(z) <==> BizIdGiven(data, fk.column, z);
  }

  lemma UidAlone(db: Database, fk: ForeignKey, data: Data, b: Option<nat>, uid: Value)
    requires UidGiven(data, fk.column, uid)
    ensures var v := ResolveOne(db, fk, data, b);
            && (v.Deferred? <==> Waits(db, fk, data, b))
            && (v.Applied? ==> Becomes(db, fk, data, b, Get(v.data, fk.column)))
  {
    UidIsCarried(data, fk.column);
    var t := TableOf(db, fk.parent);
    assert forall other :: UidGiven(data, fk.column, other) ==> other == uid;
    if uid.Text? && t.hasUid {
      FindByUidIsRight(t, uid.text, b, 0);
      assert forall p :: p in t.rows ==> exists i :: 0 <= i < |t.rows| && t.rows[i] == p;
      if FindByUid(t, uid.text, b, 0).None? {
        assert forall p :: !ParentByUid(db, fk.parent, uid, b, p);
      } else {
        var p :| p in t.rows && p.uid == Some(uid.text) && p.id == FindByUid(t, uid.text, b, 0).value && InScope(t, p, b);
        assert ParentByUid(db, fk.parent, uid, b, p);
      }
    } else {
      assert forall p :: !ParentByUid(db, fk.parent, uid, b, p);
    }
  }

  lemma RawAlone(db: Database, fk: ForeignKey, data: Data, b: Option<nat>)
    requires fk.parent != USERS && NoUid(data, fk.column)
    ensures var v := ResolveOne(db, fk, data, b);
            && (v.Deferred? <==> Waits(db, fk, data, b))
            && (v.Applied? ==> Becomes(db, fk, data, b, Get(v.data, fk.column)))
  {
    UidIsCarried(data, fk.column);
    assert !UidGiven(data, fk.column, CarriedUid(data, fk.column));
    var t, raw := TableOf(db, fk.parent), Get(data, fk.column);
    if raw.Id? {
      assert HasId(t, raw.id, Owner(data, b)) <==> exists p :: ParentById(db, fk.parent, raw, Owner(data, b), p) by {
        if i :| 0 <= i < |t.rows| && t.rows[i].id == raw.id && InScope(t, t.rows[i], Owner(data, b)) {
          assert ParentById(db, fk.parent, raw, Owner(data, b), t.rows[i]);
        }
        if p :| ParentById(db, fk.parent, raw, Owner(data, b), p) {
          var i :| 0 <= i < |t.rows| && t.rows[i] == p;
          assert t.rows[i].id == raw.id && InScope(t, t.rows[i], Owner(data, b));
        }
      }
    }
  }

  /** Each link on its own, with or without a business that is syncing. */
  lemma AloneAsRuled(db: Database, fk: ForeignKey, data: Data, b: Option<nat>)
    requires NoPartyKey(fk)
    ensures var v := ResolveOne(db, fk, data, b);
            && (v.Deferred? <==> Waits(db, fk, data, b))
            && (v.Applied? ==> Becomes(db, fk, data, b, Get(v.data, fk.column)))
  {
    if uid :| UidGiven(data, fk.column, uid) {
      UidAlone(db, fk, data, b, uid);
    } else if fk.parent == USERS {
      UserAlone(db, fk, data, b);
    } else {
      RawAlone(db, fk, data, b);
    }
  }

  /** A row waits if and only if one of its links does. */
  lemma RowWaitsIff(db: Database, fks: seq<ForeignKey>, data: Data, b: nat)
    requires AllApart(fks) && forall i :: 0 <= i < |fks| ==> NoPartyKey(fks[i])
    ensures Resolve(db, fks, data, Some(b)).Deferred? <==> exists i :: 0 <= i < |fks| && Waits(db, fks[i], data, Some(b))
  {
    WaitsExactlyForSomeLink(db, fks, data, b);
    forall i | 0 <= i < |fks|
      ensures ResolveOne(db, fks[i], data, Some(b)).Deferred? <==> Waits(db, fks[i], data, Some(b))
    {
      AloneAsRuled(db, fks[i], data, Some(b));
    }
  }

  /** A link to a user with a BizID becomes the id that the BizID resolves to. */
  lemma UserLinkBecomes(db: Database, fks: seq<ForeignKey>, data: Data, b: nat, i: nat, z: Value)
    requires i < |fks| && Apart(fks, i) && NoPartyKey(fks[i]) && fks[i].parent == USERS && NoUid(data, fks[i].column)
    requires !Blank(Get(data, fks[i].column)) && BizIdGiven(data, fks[i].column, z)
    requires Resolve(db, fks, data, Some(b)).Applied?
    ensures Known(db, z) && Get(Resolve(db, fks, data, Some(b)).data, fks[i].column) == Id(db.users[z.text])
  {
    EachLinkIsResolvedAlone(db, fks, data, b, i);
    AloneAsRuled(db, fks[i], data, Some(b));
  }

  lemma LinkIsAsRuled(db: Database, fks: seq<ForeignKey>, data: Data, b: nat, i: nat)
    requires i < |fks| && Apart(fks, i) && NoPartyKey(fks[i]) && Resolve(db, fks, data, Some(b)).Applied?
    ensures Becomes(db, fks[i], data, Some(b), Get(Resolve(db, fks, data, Some(b)).data, fks[i].column))
  {
    EachLinkIsResolvedAlone(db, fks, data, b, i);
    AloneAsRuled(db, fks[i], data, Some(b));
  }

  ghost predicate NoLink(fks: seq<ForeignKey>, x: string) {
    (forall i :: 0 <= i < |fks| ==> x != fks[i].column) && x != "seller_bizid" && x != "buyer_bizid"
  }

  lemma OthersStay(db: Database, fks: seq<ForeignKey>, data: Data, b: nat, x: string)
    requires NoLink(fks, x) && Resolve(db, fks, data, Some(b)).Applied?
    ensures var out := Resolve(db, fks, data, Some(b)).data; (x in out <==> x in data) && Get(out, x) == Get(data, x)
  {
    OthersLeaveItAlone(db, fks, data, Some(b), {x});
    assert x in {x};
  }

  /** In an accepted row each link, to users or not, is what the rule says; and whatever is neither a link
      nor the BizID of a party is as it came. */
  lemma LinksAreAsRuled(db: Database, fks: seq<ForeignKey>, data: Data, b: nat)
    requires Resolve(db, fks, data, Some(b)).Applied?
    ensures var out := Resolve(db, fks, data, Some(b)).data;
            && (forall i :: 0 <= i < |fks| && Apart(fks, i) && NoPartyKey(fks[i]) ==>
                  Becomes(db, fks[i], data, Some(b), Get(out, fks[i].column)))
            && forall x :: NoLink(fks, x) ==> (x in out <==> x in data) && Get(out, x) == Get(data, x)
  {
    var out := Resolve(db, fks, data, Some(b)).data;
    forall i | 0 <= i < |fks| && Apart(fks, i) && NoPartyKey(fks[i])
      ensures Becomes(db, fks[i], data, Some(b), Get(out, fks[i].column))
    {
      LinkIsAsRuled(db, fks, data, b, i);
    }
    forall x | NoLink(fks, x)
      ensures (x in out <==> x in data) && Get(out, x) == Get(data, x)
    {
      OthersStay(db, fks, data, b, x);
    }
  }

  lemma PartyAlone(db: Database, fk: ForeignKey, data: Data, b: nat, z: Value)
    requires fk.parent == USERS && NoUid(data, fk.column) && NoPartyKey(fk)
    requires !Blank(Get(data, fk.column)) && BizIdGiven(data, fk.column, z) && ResolveOne(db, fk, data, Some(b)).Applied?
    ensures var out := ResolveOne(db, fk, data, Some(b)).data;
            && (NamedAfter(fk.column, "seller") ==> At(out, "seller_bizid", Filled(Get(data, "seller_bizid"), z)))
            && (NamedAfter(fk.column, "buyer") && !NamedAfter(fk.column, "seller") ==>
                  At(out, "buyer_bizid", Filled(Get(data, "buyer_bizid"), z)))
  {
    UidIsCarried(data, fk.column);
    BizIdIsCarried(data, fk.column);
    assert !UidGiven(data, fk.column, CarriedUid(data, fk.column));
    ContainsIff(fk.column, "seller");
    ContainsIff(fk.column, "buyer");
  }

  function Filled(v: Value, z: Value): Value {
    if Given(v) then v else z
  }

  /** Where the BizID of the party that a column is named after was missing, it is filled in from the
      link. */
  lemma PartiesAreFilledIn(db: Database, fks: seq<ForeignKey>, data: Data, b: nat, i: nat, z: Value)
    requires i < |fks| && Apart(fks, i) && fks[i].parent == USERS && NoUid(data, fks[i].column) && NoPartyKey(fks[i])
    requires !Blank(Get(data, fks[i].column)) && BizIdGiven(data, fks[i].column, z)
    requires Resolve(db, fks, data, Some(b)).Applied?
    ensures var out := Resolve(db, fks, data, Some(b)).data;
            && (NamedAfter(fks[i].column, "seller") ==> At(out, "seller_bizid", Filled(Get(data, "seller_bizid"), z)))
            && (NamedAfter(fks[i].column, "buyer") && !NamedAfter(fks[i].column, "seller") ==>
                  At(out, "buyer_bizid", Filled(Get(data, "buyer_bizid"), z)))
  {
    EachLinkIsResolvedAlone(db, fks, data, b, i);
    PartyAlone(db, fks[i], data, b, z);
    ContainsIff(fks[i].column, "seller");
    ContainsIff(fks[i].column, "buyer");
    assert Contains(fks[i].column, "seller") ==> "seller_bizid" in Writes(fks[i]);
    assert Contains(fks[i].column, "buyer") ==> "buyer_bizid" in Writes(fks[i]);
  }
}
