/** How a template literal such as `${id}` renders an integral JavaScript number: an
    optional `-`, then the decimal digits without leading zeros. `Parse` reads that form
    back, so a rendered id can be recovered from the text it was embedded in. */
module Decimal {
  import opened Options
  import opened Text

  predicate IsDigit(c: char) {
    '0' <= c <= '9'
  }

  function DigitChar(d: nat): (c: char)
    requires d < 10
    ensures IsDigit(c) && DigitValue(c) == d
  {
    ('0' as int + d) as char
  }

  function DigitValue(c: char): (d: nat)
    requires IsDigit(c)
    ensures d < 10
  {
    c as int - '0' as int
  }

  /** A non-empty run of digits with no superfluous leading zero. */
  predicate Canonical(s: String) {
    && s != []
    && (forall i {:trigger IsDigit(s[i])} | 0 <= i < |s| :: IsDigit(s[i]))
    && (s[0] == '0' ==> |s| == 1)
  }

  /** Digits of a natural number, most significant first. */
  function Digits(n: nat): (s: String)
    ensures Canonical(s)
    ensures n < 10 <==> |s| == 1
  {
    if n < 10 then [DigitChar(n)]
    else
      var s := Digits(n / 10) + [DigitChar(n % 10)];
      assert s[0] == Digits(n / 10)[0];
      s
  }

  /** The number a run of digits denotes. */
  function Value(s: String): nat
    requires forall i {:trigger IsDigit(s[i])} | 0 <= i < |s| :: IsDigit(s[i])
  {
    if s == [] then 0 else 10 * Value(s[..|s| - 1]) + DigitValue(s[|s| - 1])
  }

  /** The text of an integer. */
  function Show(i: int): (s: String)
    ensures s != []
    ensures i < 0 <==> s[0] == '-'
  {
    if i < 0 then "-" + Digits(-i)
    else
      var s := Digits(i);
      assert IsDigit(s[0]);
      s
  }

  /** The integer a canonical text denotes, if it is one. */
  function Parse(s: String): (r: Option<int>)
    ensures r.Some? ==> s != [] && (r.value < 0 <==> s[0] == '-')
  {
    if s != [] && s[0] == '-' then
      if Canonical(s[1..]) && Value(s[1..]) > 0 then Some(0 - Value(s[1..])) else None
    else if Canonical(s) then Some(Value(s))
    else None
  }

  lemma {:induction false} ValueDigits(n: nat)
    ensures Value(Digits(n)) == n
  {
    if n >= 10 {
      ValueDigits(n / 10);
      var s := Digits(n);
      assert s[..|s| - 1] == Digits(n / 10);
    }
  }

  lemma {:induction false} DigitsValue(s: String)
    requires Canonical(s)
    ensures Digits(Value(s)) == s
    decreases |s|
  {
    if |s| > 1 {
      var p := s[..|s| - 1];
      assert p[0] == s[0];
      DigitsValue(p);
      PositiveValue(p);
      var n := Value(s);
      assert n / 10 == Value(p) && n % 10 == DigitValue(s[|s| - 1]);
      assert s == p + [s[|s| - 1]];
    }
  }

  /** A canonical run of two or more digits, or one non-zero digit, denotes a positive number. */
  lemma {:induction false} PositiveValue(s: String)
    requires Canonical(s) && s[0] != '0'
    ensures Value(s) > 0
    decreases |s|
  {
    if |s| > 1 {
      var p := s[..|s| - 1];
      assert p[0] == s[0];
      PositiveValue(p);
    }
  }

  /** Rendering an integer and reading it back gives the integer. */
  lemma ParseShow(i: int)
    ensures Parse(Show(i)) == Some(i)
  {
    var s := Show(i);
    if i < 0 {
      var d := Digits(-i);
      assert s[0] == '-' && s[1..] == d;
      ValueDigits(-i);
      assert Canonical(d) && Value(d) == -i;
    } else {
      assert IsDigit(s[0]);
      ValueDigits(i);
    }
  }

  /** A text that parses is the rendering of what it parses to. */
  lemma ShowParse(s: String)
    requires Parse(s).Some?
    ensures Show(Parse(s).value) == s
  {
    if s[0] == '-' {
      DigitsValue(s[1..]);
      assert s == "-" + s[1..];
    } else {
      DigitsValue(s);
    }
  }

  /** Different integers render differently. */
  lemma ShowInjective(i: int, j: int)
    requires Show(i) == Show(j)
    ensures i == j
  {
    ParseShow(i);
    ParseShow(j);
  }
}
