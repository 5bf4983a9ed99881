/** Idempotency keys of collection receipts: `ft-collect:<task uid>:<bill>[:after:<paise>]`. */
module CollectionKeys {
  import opened Wrappers
  import opened Decimal

  const KEY_PREFIX := "ft-collect:"
  const UID_LENGTH := 36

  function IntText(n: int): string {
    if n < 0 then "-" + Digits(-n) else Digits(n)
  }

  /** The confirmed total an approval was made against, when it is neither absent nor zero. */
  function AfterText(checkpoint: Option<int>): string {
    if checkpoint == None || checkpoint == Some(0) then "" else ":after:" + IntText(checkpoint.value)
  }

  function CollectionKey(uid: string, bill: nat, checkpoint: Option<int>): string {
    KEY_PREFIX + uid + ":" + Digits(bill) + AfterText(checkpoint)
  }

  /** The collection a receipt belongs to, read back from its key; none for any other receipt. */
  function UidOfKey(key: Option<string>): Option<string> {
    if key.None? || !(KEY_PREFIX <= key.value) then None
    else
      var rest := key.value[|KEY_PREFIX|..];
      Some(if |rest| < UID_LENGTH then rest else rest[..UID_LENGTH])
  }

  /** Both services read the task back from a receipt's key. */
  lemma UidIsReadBack(uid: string, bill: nat, checkpoint: Option<int>)
    requires |uid| == UID_LENGTH
    ensures UidOfKey(Some(CollectionKey(uid, bill, checkpoint))) == Some(uid)
  {
    var rest := ":" + Digits(bill) + AfterText(checkpoint);
    Regrouped(KEY_PREFIX + uid, ":", Digits(bill), AfterText(checkpoint));
    PrefixThenUid(uid, rest);
  }

  lemma Regrouped(a: string, b: string, c: string, d: string)
    ensures a + b + c + d == a + (b + c + d)
  {
  }

  lemma PrefixThenUid(uid: string, rest: string)
    requires |uid| == UID_LENGTH
    ensures UidOfKey(Some(KEY_PREFIX + uid + rest)) == Some(uid)
  {
    var key := KEY_PREFIX + uid + rest;
    assert |KEY_PREFIX| == 11;
    assert key[..11] == KEY_PREFIX && key[11..] == uid + rest;
    assert (uid + rest)[..UID_LENGTH] == uid;
  }

  lemma NumbersNameThemselves(m: int, n: int)
    requires IntText(m) == IntText(n)
    ensures m == n
  {
    var a, b := if m < 0 then -m else m, if n < 0 then -n else n;
    OnlyDigits(a);
    OnlyDigits(b);
    assert IsDigit(Digits(a)[0]) && IsDigit(Digits(b)[0]);
    assert m < 0 <==> n < 0;
    assert m < 0 ==> Digits(a) == IntText(m)[1..] && Digits(b) == IntText(n)[1..];
    DigitsInjective(a, b);
  }

  lemma SameBill(b: nat, c: nat, s: string, t: string)
    requires Digits(b) + s == Digits(c) + t
    requires (s == "" || s[0] == ':') && (t == "" || t[0] == ':')
    ensures b == c && s == t
  {
    var x, y := Digits(b), Digits(c);
    OnlyDigits(b);
    OnlyDigits(c);
    var whole := x + s;
    assert forall i :: 0 <= i < |x| ==> whole[i] == x[i] && IsDigit(whole[i]);
    assert forall i :: 0 <= i < |y| ==> whole[i] == y[i] && IsDigit(whole[i]);
    assert s != "" ==> whole[|x|] == ':';
    assert t != "" ==> whole[|y|] == ':';
    assert |x| == |y|;
    assert x == whole[..|x|] == y;
    assert s == whole[|x|..] == t;
    DigitsInjective(b, c);
  }

  lemma BillPart(uid: string, bill: nat, checkpoint: Option<int>)
    requires |uid| == UID_LENGTH
    ensures |CollectionKey(uid, bill, checkpoint)| >= 48
    ensures CollectionKey(uid, bill, checkpoint)[48..] == Digits(bill) + AfterText(checkpoint)
  {
    assert CollectionKey(uid, bill, checkpoint)[48..] == Digits(bill) + AfterText(checkpoint);
  }

  lemma CheckpointsNameThemselves(c: Option<int>, c': Option<int>)
    requires AfterText(c) == AfterText(c')
    ensures (if c.None? then 0 else c.value) == (if c'.None? then 0 else c'.value)
  {
    if AfterText(c) != "" {
      assert AfterText(c)[7..] == IntText(c.value) && AfterText(c')[7..] == IntText(c'.value);
      NumbersNameThemselves(c.value, c'.value);
    }
  }

  /** Keys collide only for the same task, the same bill and the same checkpoint, where no
      checkpoint and a zero one count as the same. */
  lemma KeysNeverCollide(uid: string, bill: nat, c: Option<int>, uid': string, bill': nat, c': Option<int>)
    requires |uid| == UID_LENGTH && |uid'| == UID_LENGTH
    ensures CollectionKey(uid, bill, c) == CollectionKey(uid', bill', c') <==>
            uid == uid' && bill == bill' && (if c.None? then 0 else c.value) == (if c'.None? then 0 else c'.value)
  {
    if CollectionKey(uid, bill, c) == CollectionKey(uid', bill', c') {
      UidIsReadBack(uid, bill, c);
      UidIsReadBack(uid', bill', c');
      BillPart(uid, bill, c);
      BillPart(uid', bill', c');
      SameBill(bill, bill', AfterText(c), AfterText(c'));
      CheckpointsNameThemselves(c, c');
    }
  }
}
