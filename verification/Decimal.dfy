/** Natural numbers as decimal text, as they appear inside cursors and receipt keys. */
module Decimal {
  import opened Wrappers

  const DIGITS := "0123456789"

  function Digits(n: nat): string {
    if n < 10 then [DIGITS[n]] else Digits(n / 10) + [DIGITS[n % 10]]
  }

  predicate IsDigit(c: char) {
    '0' <= c <= '9'
  }

  function DigitValue(c: char): nat
    requires IsDigit(c)
  {
    c as nat - '0' as nat
  }

  /** The number a text of decimal digits denotes; nothing for any other text. */
  function Parse(s: string): Option<nat> {
    if s == [] || !IsDigit(s[|s| - 1]) then None
    else if |s| == 1 then Some(DigitValue(s[0]))
    else
      var front := Parse(s[..|s| - 1]);
      if front.None? then None else Some(front.value * 10 + DigitValue(s[|s| - 1]))
  }

  lemma DigitOf(n: nat)
    requires n < 10
    ensures IsDigit(DIGITS[n]) && DigitValue(DIGITS[n]) == n
  {
  }

  /** Writing a number and reading it back gives the number. */
  lemma {:induction false} ParseDigits(n: nat)
    ensures Parse(Digits(n)) == Some(n)
  {
    DigitOf(n % 10);
    if n < 10 {
      assert n % 10 == n;
    } else {
      ParseDigits(n / 10);
      var s := Digits(n);
      assert s[..|s| - 1] == Digits(n / 10);
      assert Digits(n / 10) != [];
    }
  }

  lemma {:induction false} ZeroBefore(s: string)
    requires Parse(s).Some?
    ensures Parse("0" + s) == Parse(s)
  {
    var t := "0" + s;
    assert t[..|t| - 1] == "0" + s[..|s| - 1];
    if |s| == 1 {
      assert t[..1] == "0";
    } else {
      ZeroBefore(s[..|s| - 1]);
    }
  }

  /** The text is the number in decimal, with or without leading zeros. */
  ghost predicate WritesNumber(s: string, n: nat) {
    exists k: nat :: s == Zeros(k) + Digits(n)
  }

  function Zeros(k: nat): string {
    seq(k, _ => '0')
  }

  lemma {:induction false} ZerosAreRead(k: nat, n: nat)
    ensures Parse(Zeros(k) + Digits(n)) == Some(n)
  {
    if k == 0 {
      ParseDigits(n);
      assert Zeros(0) + Digits(n) == Digits(n);
    } else {
      var less := Zeros(k - 1) + Digits(n);
      ZerosAreRead(k - 1, n);
      ZeroBefore(less);
      assert "0" + less == Zeros(k) + Digits(n);
    }
  }

  lemma LastDigit(m: nat, c: char)
    requires IsDigit(c)
    ensures Digits(m * 10 + DigitValue(c)) == (if m == 0 then "" else Digits(m)) + [c]
  {
    var n := m * 10 + DigitValue(c);
    assert DIGITS[DigitValue(c)] == c;
    assert n / 10 == m && n % 10 == DigitValue(c);
  }

  lemma OneMoreDigit(front: string, m: nat, c: char)
    requires IsDigit(c) && WritesNumber(front, m)
    ensures WritesNumber(front + [c], m * 10 + DigitValue(c))
  {
    var k: nat :| front == Zeros(k) + Digits(m);
    LastDigit(m, c);
    if m == 0 {
      assert Digits(0) == "0" && front == Zeros(k + 1);
      assert front + [c] == Zeros(k + 1) + Digits(m * 10 + DigitValue(c));
    } else {
      assert front + [c] == Zeros(k) + Digits(m * 10 + DigitValue(c));
    }
  }

  lemma {:induction false} ReadIsWritten(s: string)
    requires Parse(s).Some?
    ensures WritesNumber(s, Parse(s).value)
  {
    var front, c := s[..|s| - 1], s[|s| - 1];
    assert s == front + [c];
    if front == "" {
      LastDigit(0, c);
      assert s == Zeros(0) + Digits(DigitValue(c));
    } else {
      ReadIsWritten(front);
      OneMoreDigit(front, Parse(front).value, c);
    }
  }

  /** Reading gives a number if and only if the text is that number in decimal. */
  lemma ParseIff(s: string, n: nat)
    ensures Parse(s) == Some(n) <==> WritesNumber(s, n)
  {
    if Parse(s).Some? {
      ReadIsWritten(s);
    }
    if k: nat :| s == Zeros(k) + Digits(n) {
      ZerosAreRead(k, n);
    }
  }

  lemma {:induction false} OnlyDigits(n: nat)
    ensures |Digits(n)| > 0 && forall i :: 0 <= i < |Digits(n)| ==> IsDigit(Digits(n)[i])
  {
    DigitOf(n % 10);
    if n < 10 {
      assert n % 10 == n;
    } else {
      OnlyDigits(n / 10);
    }
  }

  /** Two texts that are followed by a separator they do not contain are equal as soon as one
      whole, separator included, starts the other. */
  lemma FieldsAgree(x: string, y: string, tail: string, separator: char)
    requires separator !in x && separator !in y
    requires x + [separator] <= y + [separator] + tail
    ensures x == y
  {
    var left, right := x + [separator], y + [separator] + tail;
    assert left[|x|] == separator && right[|y|] == separator;
    assert forall i :: 0 <= i < |x| ==> left[i] == x[i] && x[i] != separator;
    assert forall i :: 0 <= i < |y| ==> right[i] == y[i] && y[i] != separator;
    assert left == right[..|left|];
    assert |x| == |y|;
    assert x == left[..|x|] && y == right[..|y|];
  }

  /** Decimal text is injective. */
  lemma DigitsInjective(m: nat, n: nat)
    requires Digits(m) == Digits(n)
    ensures m == n
  {
    ParseDigits(m);
    ParseDigits(n);
  }
}
