/** How often one set of claims can be redeemed: a spent ticket is remembered as it was written, and its
    expiry can be written in more than one way. */
module TicketSpelling {
  import opened Wrappers
  import opened Decimal
  import opened Tickets

  // ---- how a ticket is read ----

  /** The text before the first dot, and the text after it. */
  datatype Cut = Cut(head: string, tail: string)

  function CutAtDot(s: string): (cut: Option<Cut>)
    ensures cut.Some? ==> s == cut.value.head + "." + cut.value.tail
  {
    if s == "" then None
    else if s[0] == '.' then Some(Cut("", s[1..]))
    else
      var rest := CutAtDot(s[1..]);
      if rest.None? then None else Some(Cut([s[0]] + rest.value.head, rest.value.tail))
  }

  /** What the service is given: how a text is read as a number, with whatever signs, blanks and
      underscores that allows; the signature of claims and expiry; and which claims are readable. */
  datatype Service = Service(numberOf: string -> Option<int>, sign: (string, int) -> string, readable: string -> bool)

  /** Python reads no number of more digits from a text. */
  const MOST_DIGITS := 4300

  /** Texts of decimal digits are read as the number they denote. */
  ghost predicate ReadsDigits(service: Service) {
    forall s :: |s| <= MOST_DIGITS && Parse(s).Some? ==> service.numberOf(s) == Some(Parse(s).value)
  }

  /** Expiry, claims and signature, in this order; what is signed is the expiry as a number. */
  function ReadTicket(service: Service, ticket: string): Reading {
    var first := CutAtDot(ticket);
    if first.None? then Malformed
    else
      var second, expiry := CutAtDot(first.value.tail), service.numberOf(first.value.head);
      if second.None? || expiry.None? then Malformed
      else
        var claims := second.value.head;
        Parsed(expiry.value, claims, second.value.tail == service.sign(claims, expiry.value), service.readable(claims))
  }

  function Reader(service: Service): string -> Reading {
    ticket => ReadTicket(service, ticket)
  }

  /** How the expiry is written. */
  function Spelling(ticket: string): string {
    var first := CutAtDot(ticket);
    if first.None? then "" else first.value.head
  }

  // ---- one redemption for each set of claims ----

  /** A ticket that can be redeemed at some time. */
  predicate Good(r: Reading) {
    r.Parsed? && r.genuine && r.readable
  }

  /** The same claims with the same expiry. */
  predicate SameClaims(r: Reading, r': Reading) {
    r.Parsed? && r'.Parsed? && r.expiry == r'.expiry && r.claims == r'.claims
  }

  ghost predicate ForwardOnly(rs: seq<Request>) {
    forall i, j :: 0 <= i < j < |rs| ==> rs[i].now <= rs[j].now
  }

  /** Of any requests with these tickets, under a clock that only goes forward, at most one is granted
      for the same claims and expiry. */
  ghost predicate OncePerClaims(read: string -> Reading, tickets: iset<string>) {
    forall rs: seq<Request> :: ForwardOnly(rs) && (forall i :: 0 <= i < |rs| ==> rs[i].ticket in tickets) ==>
      OnceIn(read, rs)
  }

  ghost predicate OnceIn(read: string -> Reading, rs: seq<Request>) {
    forall i, j :: 0 <= i < j < |rs| && SameClaims(read(rs[i].ticket), read(rs[j].ticket)) ==>
      !(Answer(read, rs, i) && Answer(read, rs, j))
  }

  /** No two of the tickets are good for the same claims and expiry. */
  ghost predicate OneWritingEach(read: string -> Reading, tickets: iset<string>) {
    forall a, b :: a in tickets && b in tickets && a != b && Good(read(a)) && Good(read(b)) ==> !SameClaims(read(a), read(b))
  }

  lemma OneWritingIsEnough(read: string -> Reading, tickets: iset<string>, rs: seq<Request>)
    requires OneWritingEach(read, tickets) && ForwardOnly(rs) && forall i :: 0 <= i < |rs| ==> rs[i].ticket in tickets
    ensures OnceIn(read, rs)
  {
    forall i, j | 0 <= i < j < |rs| && SameClaims(read(rs[i].ticket), read(rs[j].ticket))
      ensures !(Answer(read, rs, i) && Answer(read, rs, j))
    {
      if rs[i].ticket == rs[j].ticket {
        RedeemedAtMostOnce(read, rs, i, j);
      }
    }
  }

  /** Two writings of one ticket are both redeemed, one after the other. */
  lemma TwoWritingsAreRedeemed(read: string -> Reading, a: string, b: string)
    requires a != b && Good(read(a)) && Good(read(b)) && SameClaims(read(a), read(b))
    ensures var rs := [Request(a, read(a).expiry), Request(b, read(a).expiry)];
            Answer(read, rs, 0) && Answer(read, rs, 1)
  {
    var rs := [Request(a, read(a).expiry), Request(b, read(a).expiry)];
    assert rs[..0] == [];
    FreshTicketIsRedeemed(read, rs, 0);
    assert b !in Table(read, rs[..1]);
    FreshTicketIsRedeemed(read, rs, 1);
  }

  /** Claims are redeemed at most once, whatever the requests, if and only if no two of the tickets are
      writings of one. */
  lemma OncePerClaimsIff(read: string -> Reading, tickets: iset<string>)
    ensures OncePerClaims(read, tickets) <==> OneWritingEach(read, tickets)
  {
    if OneWritingEach(read, tickets) {
      forall rs: seq<Request> | ForwardOnly(rs) && forall i :: 0 <= i < |rs| ==> rs[i].ticket in tickets
        ensures OnceIn(read, rs)
      {
        OneWritingIsEnough(read, tickets, rs);
      }
    } else {
      var a, b :| a in tickets && b in tickets && a != b && Good(read(a)) && Good(read(b)) && SameClaims(read(a), read(b));
      TwoWritingsAreRedeemed(read, a, b);
      var rs := [Request(a, read(a).expiry), Request(b, read(a).expiry)];
      assert ForwardOnly(rs) && forall i :: 0 <= i < |rs| ==> rs[i].ticket in tickets;
      assert !OnceIn(read, rs) by {
        assert SameClaims(read(rs[0].ticket), read(rs[1].ticket));
      }
    }
  }

  // ---- what tells two writings apart ----

  /** Both strings are good for the same claims and expiry. */
  predicate SameTicket(read: string -> Reading, a: string, b: string) {
    Good(read(a)) && Good(read(b)) && SameClaims(read(a), read(b))
  }

  /** Writings of one ticket differ in how they spell the expiry, and in nothing else. */
  lemma OnlySpellingsDiffer(service: Service, a: string, b: string)
    requires SameTicket(Reader(service), a, b)
    ensures a == b <==> Spelling(a) == Spelling(b)
  {
  }

  ghost predicate OneSpellingEach(read: string -> Reading, tickets: iset<string>) {
    forall a, b :: a in tickets && b in tickets && SameTicket(read, a, b) ==> Spelling(a) == Spelling(b)
  }

  lemma OneWritingIff(service: Service, tickets: iset<string>)
    ensures OneWritingEach(Reader(service), tickets) <==> OneSpellingEach(Reader(service), tickets)
  {
    var read := Reader(service);
    forall a, b | a in tickets && b in tickets && SameTicket(read, a, b)
      ensures a == b <==> Spelling(a) == Spelling(b)
    {
      OnlySpellingsDiffer(service, a, b);
    }
    if OneSpellingEach(read, tickets) {
      forall a, b | a in tickets && b in tickets && a != b && Good(read(a)) && Good(read(b))
        ensures !SameClaims(read(a), read(b))
      {
        assert SameClaims(read(a), read(b)) ==> SameTicket(read, a, b);
      }
    }
    if OneWritingEach(read, tickets) {
      forall a, b | a in tickets && b in tickets && SameTicket(read, a, b)
        ensures Spelling(a) == Spelling(b)
      {
        assert a != b ==> !SameClaims(read(a), read(b));
      }
    }
  }

  /** Of the requests with some tickets at most one is granted for the same claims and expiry if and only
      if none of them comes with its expiry spelled in two ways. */
  lemma OncePerSpellingIff(service: Service, tickets: iset<string>)
    ensures OncePerClaims(Reader(service), tickets) <==> OneSpellingEach(Reader(service), tickets)
  {
    OncePerClaimsIff(Reader(service), tickets);
    OneWritingIff(service, tickets);
  }

  // ---- tickets as they are minted, and any others ----

  function Written(service: Service, spelling: string, claims: string, expiry: int): string {
    spelling + "." + claims + "." + service.sign(claims, expiry)
  }

  function Minted(service: Service, claims: string, expiry: nat): string {
    Written(service, Digits(expiry), claims, expiry)
  }

  lemma {:induction false} CutsBack(head: string, tail: string)
    requires '.' !in head
    ensures CutAtDot(head + "." + tail) == Some(Cut(head, tail))
  {
    var s := head + "." + tail;
    if head == "" {
      assert s[1..] == tail;
    } else {
      assert head[0] in head;
      CutsBack(head[1..], tail);
      assert s[1..] == head[1..] + "." + tail && [s[0]] + head[1..] == head;
    }
  }

  lemma NoDotInDigits(n: nat)
    ensures '.' !in Digits(n)
  {
    OnlyDigits(n);
  }

  /** Whatever spelling of the expiry is read as that number makes a ticket with the same signature. */
  lemma WrittenIsRead(service: Service, spelling: string, claims: string, expiry: int)
    requires '.' !in spelling && '.' !in claims && service.numberOf(spelling) == Some(expiry)
    ensures var t := Written(service, spelling, claims, expiry);
            ReadTicket(service, t) == Parsed(expiry, claims, true, service.readable(claims)) && Spelling(t) == spelling
  {
    var rest := claims + "." + service.sign(claims, expiry);
    assert Written(service, spelling, claims, expiry) == spelling + "." + rest;
    CutsBack(spelling, rest);
    CutsBack(claims, service.sign(claims, expiry));
  }

  /** A minted ticket is read as it was meant, and its expiry is spelled without leading zeros. */
  lemma MintedIsRead(service: Service, claims: string, expiry: nat)
    requires '.' !in claims && ReadsDigits(service) && |Digits(expiry)| <= MOST_DIGITS
    ensures var t := Minted(service, claims, expiry);
            ReadTicket(service, t) == Parsed(expiry, claims, true, service.readable(claims)) && Spelling(t) == Digits(expiry)
  {
    NoDotInDigits(expiry);
    ParseDigits(expiry);
    WrittenIsRead(service, Digits(expiry), claims, expiry);
  }

  ghost predicate IsMinted(service: Service, ticket: string) {
    exists claims: string, expiry: nat ::
      '.' !in claims && |Digits(expiry)| <= MOST_DIGITS && ticket == Minted(service, claims, expiry)
  }

  /** Minted tickets are granted once for each claims and expiry. */
  lemma MintedOnce(service: Service, tickets: iset<string>)
    requires ReadsDigits(service) && forall t :: t in tickets ==> IsMinted(service, t)
    ensures OncePerClaims(Reader(service), tickets)
  {
    var read := Reader(service);
    forall a, b | a in tickets && b in tickets && SameTicket(read, a, b)
      ensures Spelling(a) == Spelling(b)
    {
      assert IsMinted(service, a) && IsMinted(service, b);
      var c: string, e: nat :| '.' !in c && |Digits(e)| <= MOST_DIGITS && a == Minted(service, c, e);
      var d: string, f: nat :| '.' !in d && |Digits(f)| <= MOST_DIGITS && b == Minted(service, d, f);
      MintedIsRead(service, c, e);
      MintedIsRead(service, d, f);
    }
    OncePerSpellingIff(service, tickets);
  }

  lemma ZeroIsRead(service: Service, expiry: nat)
    requires ReadsDigits(service) && |Digits(expiry)| < MOST_DIGITS
    ensures '.' !in "0" + Digits(expiry) && service.numberOf("0" + Digits(expiry)) == Some(expiry)
  {
    NoDotInDigits(expiry);
    ParseDigits(expiry);
    ZeroBefore(Digits(expiry));
  }

  lemma ZeroFirst(service: Service, claims: string, expiry: nat)
    ensures "0" + Minted(service, claims, expiry) == Written(service, "0" + Digits(expiry), claims, expiry)
  {
  }

  /** A zero before a minted ticket makes another writing of it. */
  lemma ZeroSpelling(service: Service, claims: string, expiry: nat)
    requires '.' !in claims && service.readable(claims) && ReadsDigits(service) && |Digits(expiry)| < MOST_DIGITS
    ensures var t := Minted(service, claims, expiry);
            SameTicket(Reader(service), t, "0" + t) && Spelling("0" + t) != Spelling(t)
  {
    MintedIsRead(service, claims, expiry);
    ZeroIsRead(service, expiry);
    WrittenIsRead(service, "0" + Digits(expiry), claims, expiry);
    ZeroFirst(service, claims, expiry);
  }
}
