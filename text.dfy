/** String primitives of the JavaScript runtime that the components rely on:
    `trim`, `split` with a one-character separator, `join`, `startsWith`/`endsWith`
    and `slice` with its clamping of negative and out-of-range indices.
    Strings are sequences of Unicode characters; JavaScript counts UTF-16 code units
    instead, which differs only for characters outside the Basic Multilingual Plane. */
module Text {
  import opened Options

  type String = seq<char>

  /** JavaScript truthiness of a `string | null | undefined`: present and not empty. */
  predicate Truthy(s: Option<String>) {
    s.Some? && s.value != []
  }

  /** `s || fallback` for such a value. */
  function OrElse(s: Option<String>, fallback: String): (r: String)
    ensures Truthy(s) ==> r == s.value
    ensures !Truthy(s) ==> r == fallback
  {
    if Truthy(s) then s.value else fallback
  }

  /** ECMAScript WhiteSpace and LineTerminator code points: the characters that
      `String.prototype.trim` removes and that the regular-expression class `\s` matches. */
  predicate IsWhitespace(c: char) {
    var n := c as int;
    || (0x09 <= n <= 0x0D) || n == 0x20 || n == 0xA0 || n == 0x1680
    || (0x2000 <= n <= 0x200A) || n == 0x2028 || n == 0x2029 || n == 0x202F || n == 0x205F
    || n == 0x3000 || n == 0xFEFF
  }

  /** The characters the regular-expression atom `.` refuses (no `s` flag). */
  predicate IsLineTerminator(c: char) {
    var n := c as int;
    n == 0x0A || n == 0x0D || n == 0x2028 || n == 0x2029
  }

  /** `s.trim() === ''`: every character is whitespace. */
  predicate IsBlank(s: String) {
    forall i | 0 <= i < |s| :: IsWhitespace(s[i])
  }

  predicate StartsWith(s: String, prefix: String) {
    |prefix| <= |s| && s[..|prefix|] == prefix
  }

  predicate EndsWith(s: String, suffix: String) {
    |suffix| <= |s| && s[|s| - |suffix|..] == suffix
  }

  /** Length of the run of whitespace at the start of `s`. */
  function WhitespaceRun(s: String): (n: nat)
    ensures n <= |s|
    ensures forall i | 0 <= i < n :: IsWhitespace(s[i])
    ensures n < |s| ==> !IsWhitespace(s[n])
  {
    if s != [] && IsWhitespace(s[0]) then 1 + WhitespaceRun(s[1..]) else 0
  }

  /** Length of the run of whitespace at the end of `s`. */
  function TrailingWhitespaceRun(s: String): (n: nat)
    ensures n <= |s|
    ensures forall i | |s| - n <= i < |s| :: IsWhitespace(s[i])
    ensures n < |s| ==> !IsWhitespace(s[|s| - n - 1])
  {
    if s != [] && IsWhitespace(s[|s| - 1]) then 1 + TrailingWhitespaceRun(s[..|s| - 1]) else 0
  }

  /** `String.prototype.trim`: the middle of `s` between a blank prefix and a blank suffix,
      starting and ending with a non-whitespace character. */
  function Trim(s: String): (r: String)
    ensures exists i, j :: 0 <= i <= j <= |s| && r == s[i..j] && IsBlank(s[..i]) && IsBlank(s[j..])
    ensures r != [] ==> !IsWhitespace(r[0]) && !IsWhitespace(r[|r| - 1])
    ensures r == [] <==> IsBlank(s)
  {
    var i := WhitespaceRun(s);
    if i == |s| then
      assert IsBlank(s[..i]) && IsBlank(s[i..]) && s[i..i] == [];
      []
    else
      var j := |s| - TrailingWhitespaceRun(s);
      assert !IsWhitespace(s[i]);
      assert IsBlank(s[..i]) && IsBlank(s[j..]);
      s[i..j]
  }

  /** Number of occurrences of `c` in `s`. */
  function Count(s: String, c: char): (n: nat)
    ensures n <= |s|
    ensures n == 0 <==> c !in s
  {
    if s == [] then 0 else (if s[0] == c then 1 else 0) + Count(s[1..], c)
  }

  /** Concatenation of the pieces, in order. */
  function Concat(parts: seq<String>): String {
    if parts == [] then [] else parts[0] + Concat(parts[1..])
  }

  /** `parts.join(sep)`. */
  function Join(parts: seq<String>, sep: char): String {
    if |parts| == 0 then []
    else if |parts| == 1 then parts[0]
    else parts[0] + [sep] + Join(parts[1..], sep)
  }

  /** `s.split(sep)` for a one-character separator: the maximal separator-free pieces,
      in order, one more than there are separators. */
  function Split(s: String, sep: char): (parts: seq<String>)
    ensures |parts| == Count(s, sep) + 1
    ensures forall i | 0 <= i < |parts| :: sep !in parts[i]
    ensures Join(parts, sep) == s
  {
    if s == [] then [[]]
    else
      var rest := Split(s[1..], sep);
      if s[0] == sep then
        assert s == [sep] + s[1..];
        [[]] + rest
      else
        var parts := [[s[0]] + rest[0]] + rest[1..];
        JoinExtend(s[0], rest, sep);
        assert s == [s[0]] + s[1..];
        parts
  }

  /** Putting a character in front of the first piece puts it in front of the join. */
  lemma JoinExtend(c: char, parts: seq<String>, sep: char)
    requires |parts| >= 1
    ensures Join([[c] + parts[0]] + parts[1..], sep) == [c] + Join(parts, sep)
  {
    var longer := [[c] + parts[0]] + parts[1..];
    assert longer[1..] == parts[1..];
  }

  /** A separator-free piece followed by the separator splits off as one piece. */
  lemma {:induction false} SplitAfterPiece(a: String, b: String, sep: char)
    requires sep !in a
    ensures Split(a + [sep] + b, sep) == [a] + Split(b, sep)
  {
    if a == [] {
      assert a + [sep] + b == [sep] + b;
      SplitSeparator(b, sep);
    } else {
      var t := a[1..] + [sep] + b;
      assert a + [sep] + b == [a[0]] + t;
      SplitAfterPiece(a[1..], b, sep);
      SplitOther(a[0], t, sep);
      assert a == [a[0]] + a[1..];
    }
  }

  /** A leading separator closes an empty first piece. */
  lemma SplitSeparator(t: String, sep: char)
    ensures Split([sep] + t, sep) == [[]] + Split(t, sep)
  {
    assert ([sep] + t)[1..] == t;
  }

  /** Any other leading character opens the first piece. */
  lemma SplitOther(c: char, t: String, sep: char)
    requires c != sep
    ensures Split([c] + t, sep) == [[c] + Split(t, sep)[0]] + Split(t, sep)[1..]
  {
    assert ([c] + t)[1..] == t;
  }

  /** A separator-free string splits into itself. */
  lemma {:induction false} SplitPiece(a: String, sep: char)
    requires sep !in a
    ensures Split(a, sep) == [a]
  {
    if a != [] {
      SplitPiece(a[1..], sep);
      assert a == [a[0]] + a[1..];
    }
  }

  /** Splitting undoes joining, provided there is at least one piece and no piece holds
      the separator. (With zero pieces the join is "" and splits into one empty piece.) */
  lemma {:induction false} SplitJoin(parts: seq<String>, sep: char)
    requires |parts| >= 1
    requires forall i | 0 <= i < |parts| :: sep !in parts[i]
    ensures Split(Join(parts, sep), sep) == parts
  {
    if |parts| == 1 {
      SplitPiece(parts[0], sep);
    } else {
      SplitJoin(parts[1..], sep);
      SplitAfterPiece(parts[0], Join(parts[1..], sep), sep);
      assert parts == [parts[0]] + parts[1..];
    }
  }

  /** Joining n pieces inserts n - 1 separators besides those the pieces hold. */
  lemma {:induction false} CountJoin(parts: seq<String>, sep: char)
    requires |parts| >= 1
    requires forall i | 0 <= i < |parts| :: sep !in parts[i]
    ensures Count(Join(parts, sep), sep) == |parts| - 1
  {
    if |parts| == 1 {
    } else {
      CountJoin(parts[1..], sep);
      CountAppend(parts[0] + [sep], Join(parts[1..], sep), sep);
      CountAppend(parts[0], [sep], sep);
    }
  }

  lemma {:induction false} CountAppend(a: String, b: String, c: char)
    ensures Count(a + b, c) == Count(a, c) + Count(b, c)
  {
    if a != [] {
      assert (a + b)[1..] == a[1..] + b;
      CountAppend(a[1..], b, c);
    } else {
      assert a + b == b;
    }
  }

  /** A suffix is the concatenation of the slices it is cut into. */
  lemma SliceThree(s: String, p: nat, q: nat, e: nat)
    requires p <= q <= e <= |s|
    ensures s[p..] == s[p..q] + (s[q..e] + s[e..])
  {
    assert s[q..] == s[q..e] + s[e..];
    assert s[p..] == s[p..q] + s[q..];
  }

  /** `s.slice(start, end)`: a negative index counts from the end, both indices are clamped
      to the string, and an empty string results when the start is not before the end. */
  function Slice(s: String, start: int, end: int): (r: String)
    ensures |r| <= |s|
    ensures 0 <= start <= end <= |s| ==> r == s[start..end]
    ensures 0 <= start && |s| <= end ==> r == s[Min(start, |s|)..]
    ensures end >= 0 && start >= end ==> r == []
    ensures 0 <= start && end < 0 && start <= |s| + end ==> r == s[start..|s| + end]
    ensures Clamp(start, |s|) < Clamp(end, |s|) ==> r == s[Clamp(start, |s|)..Clamp(end, |s|)]
    ensures Clamp(start, |s|) >= Clamp(end, |s|) ==> r == []
  {
    var from := Clamp(start, |s|);
    var to := Clamp(end, |s|);
    if from < to then s[from..to] else []
  }

  function Min(a: int, b: int): int { if a <= b then a else b }

  /** The index `Slice` uses for `i` on a string of length `len`. */
  function Clamp(i: int, len: nat): (k: nat)
    ensures k <= len
    ensures 0 <= i ==> k == Min(i, len)
    ensures i < 0 && -i <= len ==> k == len + i
    ensures i + len < 0 ==> k == 0
  {
    if i < 0 then (if len + i < 0 then 0 else len + i) else Min(i, len)
  }
}
