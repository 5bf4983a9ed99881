/** The cursor text a replica hands back: `feed:v2:<business>:<revision>`. */
module FeedCursor {
  import opened Wrappers
  import opened Decimal
  import opened FeedOwners

  function Prefix(b: Business): string {
    "feed:v2:" + Digits(b) + ":"
  }

  function CursorText(b: Business, revision: nat): string {
    Prefix(b) + Digits(revision)
  }

  /** The revision to continue from.  No cursor, or one that does not belong to this business,
      replays from zero; one that does must end in a number. */
  function StartRevision(b: Business, cursor: string): Result<nat, string> {
    if cursor == "" then Ok(0)
    else if !(Prefix(b) <= cursor) then Ok(0)
    else
      var revision := Parse(cursor[|Prefix(b)|..]);
      if revision.None? then Err("Invalid sync revision") else Ok(revision.value)
  }

  lemma PrefixNamesTheBusiness(b: Business, other: Business, revision: nat)
    requires Prefix(other) <= CursorText(b, revision)
    ensures other == b
  {
    OnlyDigits(b);
    OnlyDigits(other);
    var x, y, tail := Digits(other), Digits(b), Digits(revision);
    assert Prefix(other)[8..] == x + [':'];
    assert CursorText(b, revision)[8..] == y + [':'] + tail;
    FieldsAgree(x, y, tail, ':');
    DigitsInjective(other, b);
  }

  /** A cursor gives back its revision to its own business, and zero to every other. */
  lemma CursorRoundTrip(b: Business, other: Business, revision: nat)
    ensures StartRevision(b, CursorText(b, revision)) == Ok(revision)
    ensures other != b ==> StartRevision(other, CursorText(b, revision)) == Ok(0)
  {
    assert CursorText(b, revision)[|Prefix(b)|..] == Digits(revision);
    ParseDigits(revision);
    if other != b && Prefix(other) <= CursorText(b, revision) {
      PrefixNamesTheBusiness(b, other, revision);
    }
  }

  /** Where a pull starts: at the number after the business's own prefix; and at zero with any other text,
      such as none at all or a cursor of an earlier protocol. */
  ghost predicate StartsAt(b: Business, cursor: string, n: nat) {
    var prefix := "feed:v2:" + Digits(b) + ":";
    if prefix <= cursor then WritesNumber(cursor[|prefix|..], n) else n == 0
  }

  lemma StartIff(b: Business, cursor: string, n: nat)
    ensures StartRevision(b, cursor) == Ok(n) <==> StartsAt(b, cursor, n)
  {
    if Prefix(b) <= cursor {
      ParseIff(cursor[|Prefix(b)|..], n);
    }
  }

  lemma HandedOutStarts(b: Business, n: nat, m: nat)
    ensures StartsAt(b, CursorText(b, n), m) <==> m == n
  {
    CursorRoundTrip(b, b, n);
    StartIff(b, CursorText(b, n), m);
  }
}
