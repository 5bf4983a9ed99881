/** Who owns a synced row, and to whom the change-feed triggers announce it. */
module FeedOwners {
  import opened Wrappers

  type Business = nat

  /** The owner columns of a row.  `ViaOrder` is a B2B order line: it has none of its own and
      the trigger reads the seller, then the buyer, of its order. */
  datatype OwnerColumns =
    | Sole(business: Option<Business>)
    | TwoSided(seller: Option<Business>, buyer: Option<Business>)
    | ViaOrder(seller: Option<Business>, buyer: Option<Business>)

  function Present(b: Option<Business>): seq<Business> {
    if b.Some? then [b.value] else []
  }

  /** LEAST and GREATEST of PostgreSQL skip a NULL argument. */
  function Least(a: Option<Business>, b: Option<Business>): Option<Business> {
    if a.None? then b else if b.None? then a else Some(if a.value <= b.value then a.value else b.value)
  }

  function Greatest(a: Option<Business>, b: Option<Business>): Option<Business> {
    if a.None? then b else if b.None? then a else Some(if a.value <= b.value then b.value else a.value)
  }

  /** The businesses a PostgreSQL trigger announces a row to, in the order it locks their clocks. */
  function EmitOwners(c: OwnerColumns): seq<Business> {
    match c
    case Sole(b) => Present(b)
    case TwoSided(s, b) => Present(Least(s, b)) + Present(Greatest(s, b))
    case ViaOrder(s, b) => Present(s) + Present(b)
  }

  /** The same on SQLite, whose two-argument min and max are NULL when either argument is. */
  function EmitOwnersSqlite(c: OwnerColumns): seq<Business> {
    match c
    case TwoSided(s, b) => if s.None? || b.None? then [] else EmitOwners(c)
    case _ => EmitOwners(c)
  }

  /** The sorted, duplicate-free owners used when existing rows are seeded. */
  function SeedOwners(c: OwnerColumns): seq<Business> {
    match c
    case Sole(b) => Present(b)
    case _ =>
      if c.seller.None? || c.buyer.None? || c.seller == c.buyer then Present(Least(c.seller, c.buyer))
      else Present(Least(c.seller, c.buyer)) + Present(Greatest(c.seller, c.buyer))
  }

  /** The set of owners of a row. */
  function Owners(c: OwnerColumns): set<Business> {
    match c
    case Sole(b) => if b.Some? then {b.value} else {}
    case _ => (if c.seller.Some? then {c.seller.value} else {}) + (if c.buyer.Some? then {c.buyer.value} else {})
  }

  /** Seeding and the trigger reach the same businesses; seeding reaches each once, in ascending order. */
  lemma SeedingReachesTheTriggersOwners(c: OwnerColumns)
    ensures forall b :: b in EmitOwners(c) <==> b in Owners(c)
    ensures forall b :: b in SeedOwners(c) <==> b in Owners(c)
    ensures forall i, j :: 0 <= i < j < |SeedOwners(c)| ==> SeedOwners(c)[i] < SeedOwners(c)[j]
  {
    forall b
      ensures b in EmitOwners(c) <==> b in Owners(c)
      ensures b in SeedOwners(c) <==> b in Owners(c)
    {
      match c {
        case Sole(x) =>
        case _ =>
          var least, greatest := Least(c.seller, c.buyer), Greatest(c.seller, c.buyer);
          assert b in Present(least) + Present(greatest) <==> b in Present(least) || b in Present(greatest);
          assert b in Present(c.seller) + Present(c.buyer) <==> b in Present(c.seller) || b in Present(c.buyer);
      }
    }
  }

  /** Whenever both owner columns are on the row, the trigger locks clocks in ascending order. */
  lemma OwnColumnsLockAscending(c: OwnerColumns, i: nat, j: nat)
    requires !c.ViaOrder? && i < j < |EmitOwners(c)|
    ensures EmitOwners(c)[i] <= EmitOwners(c)[j]
  {
    assert c.TwoSided?;
  }

  /** The two dialects announce every row alike exactly when no shared row lacks just one owner. */
  lemma DialectsAgreeExactly(c: OwnerColumns)
    ensures EmitOwnersSqlite(c) == EmitOwners(c) <==> !(c.TwoSided? && c.seller.Some? != c.buyer.Some?)
  {
    if c.TwoSided? && c.seller.Some? != c.buyer.Some? {
      assert |EmitOwners(c)| == 2;
    }
  }
}
