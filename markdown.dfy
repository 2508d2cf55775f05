/** The line-oriented formatter the contestation detail page applies to a contestation's
    text (`renderMarkdown`): one output block per `'\n'`-separated line, blank lines become
    breaks, a leading header marker `^#{1,5}\s+` is removed, and the line is split with the
    capturing regular expression `(\*\*.*?\*\*|\*.*?\*)` into parts, each of which is shown
    either verbatim or as emphasis with its asterisks sliced off. */
module Markdown {
  import opened Text
  import opened Options

  /** One inline piece of a paragraph: verbatim text or a `<strong>` span. */
  datatype Segment = Plain(text: String) | Strong(text: String)

  /** One output element per input line. */
  datatype Block = Break | Paragraph(segments: seq<Segment>)

  /** The whole output: the "content not available" placeholder, or the blocks. */
  datatype Rendered = Unavailable | Blocks(blocks: seq<Block>)

  // ---------------------------------------------------------------------------
  // Header marker `^#{1,5}\s+`

  /** Length of the run of `#` at the start of `s`. */
  function HashRun(s: String): (n: nat)
    ensures n <= |s|
    ensures forall i | 0 <= i < n :: s[i] == '#'
    ensures n < |s| ==> s[n] != '#'
  {
    if s != [] && s[0] == '#' then 1 + HashRun(s[1..]) else 0
  }

  /** The regular expression `^#{1,5}\s+` matches the first `n` characters of `s` with
      `k` hashes: 1 to 5 hashes at column 0, then whitespace up to `n`, and `\s+` is
      greedy, so the character at `n` (if any) is not whitespace. */
  ghost predicate HeaderMarker(s: String, k: nat, n: nat) {
    && 1 <= k <= 5 && k < n <= |s|
    && (forall i | 0 <= i < k :: s[i] == '#')
    && (forall i | k <= i < n :: IsWhitespace(s[i]))
    && (n == |s| || !IsWhitespace(s[n]))
  }

  /** `line.replace(/^#{1,5}\s+/, '')`. */
  function StripHeader(line: String): (r: String)
    ensures |r| <= |line| && r == line[|line| - |r|..]
  {
    var h := HashRun(line);
    if 1 <= h <= 5 && h < |line| && IsWhitespace(line[h]) then
      line[h + WhitespaceRun(line[h..])..]
    else
      line
  }

  /** A run of exactly `k` hashes has length `k`. */
  lemma {:induction false} HashRunIs(s: String, k: nat)
    requires k <= |s| && (forall i | 0 <= i < k :: s[i] == '#') && (k < |s| ==> s[k] != '#')
    ensures HashRun(s) == k
  {
    if k > 0 {
      HashRunIs(s[1..], k - 1);
    }
  }

  /** A run of exactly `k` whitespace characters has length `k`. */
  lemma {:induction false} WhitespaceRunIs(s: String, k: nat)
    requires k <= |s| && (forall i | 0 <= i < k :: IsWhitespace(s[i])) && (k < |s| ==> !IsWhitespace(s[k]))
    ensures WhitespaceRun(s) == k
  {
    if k > 0 {
      WhitespaceRunIs(s[1..], k - 1);
    }
  }

  /** Wherever the marker matches, exactly the matched prefix is removed. */
  lemma StripHeaderRemovesMarker(s: String, k: nat, n: nat)
    requires HeaderMarker(s, k, n)
    ensures StripHeader(s) == s[n..]
  {
    assert s[k] != '#';
    HashRunIs(s, k);
    SuffixRun(s, k, n);
  }

  /** The whitespace between `k` and `n`, ended by a non-whitespace character or the end
      of `s`, is the whole whitespace run of `s[k..]`. */
  lemma SuffixRun(s: String, k: nat, n: nat)
    requires k <= n <= |s|
    requires forall i | k <= i < n :: IsWhitespace(s[i])
    requires n == |s| || !IsWhitespace(s[n])
    ensures WhitespaceRun(s[k..]) == n - k
  {
    var t := s[k..];
    forall i | 0 <= i < n - k ensures IsWhitespace(t[i]) {
      assert t[i] == s[k + i];
    }
    if n < |s| {
      assert t[n - k] == s[n];
    }
    WhitespaceRunIs(t, n - k);
  }

  /** Whenever something is removed, the marker matched exactly what was removed. */
  lemma StripHeaderOnlyMarker(s: String)
    requires StripHeader(s) != s
    ensures HeaderMarker(s, HashRun(s), |s| - |StripHeader(s)|)
  {
    var h := HashRun(s);
    assert 1 <= h <= 5 && h < |s| && IsWhitespace(s[h]);
    var w := WhitespaceRun(s[h..]);
    assert |StripHeader(s)| == |s| - (h + w);
    RunsMakeMarker(s, h, w);
  }

  /** The hashes and the whitespace after them, when both runs are there, form the marker. */
  lemma RunsMakeMarker(s: String, h: nat, w: nat)
    requires h == HashRun(s) && 1 <= h <= 5 && h < |s|
    requires w == WhitespaceRun(s[h..]) && w >= 1
    ensures HeaderMarker(s, h, h + w)
  {
    var t := s[h..];
    forall i | h <= i < h + w ensures IsWhitespace(s[i]) {
      assert t[i - h] == s[i];
    }
    if h + w < |s| {
      assert t[w] == s[h + w];
    }
  }

  /** One to five hashes followed by whitespace are removed with all of that whitespace. */
  lemma StripHeaderOnHeaders(one: String, five: String)
    requires one == "# T" && five == "#####\t\tF"
    ensures StripHeader(one) == "T" && StripHeader(five) == "F"
  {
    assert HeaderMarker(one, 1, 2);
    StripHeaderRemovesMarker(one, 1, 2);
    assert HeaderMarker(five, 5, 7);
    StripHeaderRemovesMarker(five, 5, 7);
  }

  /** No whitespace after the hashes, indentation before them, and six hashes all leave
      the line unchanged. */
  lemma StripHeaderKeepsOthers(glued: String, indented: String, six: String)
    requires glued == "#Title" && indented == "  # x" && six == "###### x"
    ensures StripHeader(glued) == glued
    ensures StripHeader(indented) == indented
    ensures StripHeader(six) == six
  {
    HashRunIs(glued, 1);
    HashRunIs(indented, 0);
    HashRunIs(six, 6);
  }

  // ---------------------------------------------------------------------------
  // The emphasis regular expression `\*\*.*?\*\*|\*.*?\*`

  /** A match of the first alternative `\*\*.*?\*\*`: the lazy `.*?` stops at the first
      `**`, and `.` refuses line terminators. */
  ghost predicate DoubleToken(t: String) {
    && |t| >= 4 && t[0] == '*' && t[1] == '*' && t[|t| - 2] == '*' && t[|t| - 1] == '*'
    && (forall j | 2 <= j < |t| - 2 :: !IsLineTerminator(t[j]))
    && (forall j {:trigger IsPair(t, j)} | 2 <= j < |t| - 2 :: !IsPair(t, j))
  }

  /** `**` starts at position `j` of `s`. */
  predicate IsPair(s: String, j: int) {
    0 <= j && j + 1 < |s| && s[j] == '*' && s[j + 1] == '*'
  }

  /** A match of the second alternative `\*.*?\*`: it stops at the first `*`. */
  ghost predicate SingleToken(t: String) {
    && |t| >= 2 && t[0] == '*' && t[|t| - 1] == '*'
    && forall j | 1 <= j < |t| - 1 :: t[j] != '*' && !IsLineTerminator(t[j])
  }

  ghost predicate IsToken(t: String) {
    DoubleToken(t) || SingleToken(t)
  }

  /** The lazy `.*?\*\*` scanning from `m`: the end of the first `**` reached without
      crossing a line terminator. */
  function CloseDouble(s: String, m: nat): (e: Option<nat>)
    requires m <= |s|
    decreases |s| - m
    ensures e.Some? ==> m + 2 <= e.value <= |s| && s[e.value - 2] == '*' && s[e.value - 1] == '*'
  {
    if m + 2 <= |s| && s[m] == '*' && s[m + 1] == '*' then Some(m + 2)
    else if m < |s| && !IsLineTerminator(s[m]) then CloseDouble(s, m + 1)
    else None
  }

  /** The lazy `.*?\*` scanning from `m`: the end of the first `*` reached without crossing
      a line terminator. */
  function CloseSingle(s: String, m: nat): (e: Option<nat>)
    requires m <= |s|
    decreases |s| - m
    ensures e.Some? ==> m + 1 <= e.value <= |s| && s[e.value - 1] == '*'
  {
    if m < |s| && s[m] == '*' then Some(m + 1)
    else if m < |s| && !IsLineTerminator(s[m]) then CloseSingle(s, m + 1)
    else None
  }

  /** The `.*?` before the closing `**` crosses no line terminator and no earlier `**`. */
  lemma {:induction false} CloseDoubleLazy(s: String, m: nat)
    requires m <= |s| && CloseDouble(s, m).Some?
    ensures forall j | m <= j < CloseDouble(s, m).value - 2 :: !IsLineTerminator(s[j])
    ensures forall j {:trigger IsPair(s, j)} | m <= j < CloseDouble(s, m).value - 2 :: !IsPair(s, j)
    decreases |s| - m
  {
    if !(m + 2 <= |s| && s[m] == '*' && s[m + 1] == '*') {
      CloseDoubleLazy(s, m + 1);
    }
  }

  /** The `.*?` before the closing `*` crosses no line terminator and no `*`. */
  lemma {:induction false} CloseSingleLazy(s: String, m: nat)
    requires m <= |s| && CloseSingle(s, m).Some?
    ensures forall j | m <= j < CloseSingle(s, m).value - 1 :: s[j] != '*' && !IsLineTerminator(s[j])
    decreases |s| - m
  {
    if s[m] != '*' {
      CloseSingleLazy(s, m + 1);
    }
  }

  /** The end of the match of the alternation at position `q`, the first alternative
      tried before the second. */
  function MatchAt(s: String, q: nat): (e: Option<nat>)
    requires q < |s|
    ensures e.Some? ==> q + 2 <= e.value <= |s|
    ensures s[q] != '*' ==> e == None
  {
    var d := if q + 1 < |s| && s[q] == '*' && s[q + 1] == '*' then CloseDouble(s, q + 2) else None;
    if d.Some? then d
    else if s[q] == '*' then CloseSingle(s, q + 1)
    else None
  }

  /** What the alternation matches is an emphasis token. */
  lemma MatchIsToken(s: String, q: nat)
    requires q < |s| && MatchAt(s, q).Some?
    ensures IsToken(s[q..MatchAt(s, q).value])
  {
    var e := MatchAt(s, q).value;
    var t := s[q..e];
    var d := if q + 1 < |s| && s[q] == '*' && s[q + 1] == '*' then CloseDouble(s, q + 2) else None;
    if d.Some? {
      CloseDoubleLazy(s, q + 2);
      forall j | 2 <= j < |t| - 2 ensures !IsLineTerminator(t[j]) && !IsPair(t, j) {
        assert t[j] == s[q + j] && t[j + 1] == s[q + j + 1];
        assert !IsPair(s, q + j);
      }
      assert DoubleToken(t);
    } else {
      CloseSingleLazy(s, q + 1);
      forall j | 1 <= j < |t| - 1 ensures t[j] != '*' && !IsLineTerminator(t[j]) {
        assert t[j] == s[q + j];
      }
      assert SingleToken(t);
    }
  }

  /** `String.prototype.split` with the capturing emphasis regex, continuing from the end
      `p` of the last match with the search at `q`: the text before each match, then the
      match itself (the captured group), and finally the rest of the line. */
  function SplitFrom(s: String, p: nat, q: nat): (parts: seq<String>)
    requires p <= q <= |s|
    decreases |s| - q
  {
    if q == |s| then [s[p..]]
    else
      match MatchAt(s, q)
      case None => SplitFrom(s, p, q + 1)
      case Some(e) => [s[p..q], s[q..e]] + SplitFrom(s, e, e)
  }

  /** The parts alternate: text, match, text, ..., text. */
  lemma {:induction false} SplitFromOdd(s: String, p: nat, q: nat)
    requires p <= q <= |s|
    ensures |SplitFrom(s, p, q)| % 2 == 1
    decreases |s| - q
  {
    if q < |s| {
      match MatchAt(s, q)
      case None => SplitFromOdd(s, p, q + 1);
      case Some(e) => SplitFromOdd(s, e, e);
    }
  }

  /** The split keeps its delimiters: the parts concatenate back to the text. */
  lemma {:induction false} SplitFromConcat(s: String, p: nat, q: nat)
    requires p <= q <= |s|
    ensures Concat(SplitFrom(s, p, q)) == s[p..]
    decreases |s| - q
  {
    if q < |s| {
      match MatchAt(s, q)
      case None => SplitFromConcat(s, p, q + 1);
      case Some(e) =>
        SplitFromConcat(s, e, e);
        var rest := SplitFrom(s, e, e);
        var parts := [s[p..q], s[q..e]] + rest;
        assert parts[1..] == [s[q..e]] + rest && parts[1..][1..] == rest;
        SliceThree(s, p, q, e);
    }
  }

  /** The parts at odd positions are the matches, each an emphasis token. */
  lemma {:induction false} SplitFromTokens(s: String, p: nat, q: nat)
    requires p <= q <= |s|
    ensures forall i | 0 <= i < |SplitFrom(s, p, q)| && i % 2 == 1 :: IsToken(SplitFrom(s, p, q)[i])
    decreases |s| - q
  {
    if q < |s| {
      match MatchAt(s, q)
      case None => SplitFromTokens(s, p, q + 1);
      case Some(e) =>
        SplitFromTokens(s, e, e);
        MatchIsToken(s, q);
        var rest := SplitFrom(s, e, e);
        var parts := [s[p..q], s[q..e]] + rest;
        forall i | 0 <= i < |parts| && i % 2 == 1 ensures IsToken(parts[i]) {
          if i > 1 { assert parts[i] == rest[i - 2]; }
        }
    }
  }

  /** Where part `i` starts in the text the parts concatenate to. */
  ghost function Off(parts: seq<String>, i: nat): nat
    requires i <= |parts|
  {
    |Concat(parts[..i])|
  }

  /** No match of the alternation starts anywhere in `s[a..b]`. */
  ghost predicate NoMatchIn(s: String, a: nat, b: nat) {
    b <= |s| && forall k | a <= k < b :: MatchAt(s, k) == None
  }

  /** Each part at an even position, placed at `p` plus its offset, holds no match start. */
  ghost predicate TextsFree(s: String, p: nat, parts: seq<String>) {
    forall i | 0 <= i < |parts| && i % 2 == 0 ::
      NoMatchIn(s, p + Off(parts, i), p + Off(parts, i) + |parts[i]|)
  }

  /** Each part at an odd position, placed at `p` plus its offset, is the match found there. */
  ghost predicate TokensMatched(s: String, p: nat, parts: seq<String>) {
    forall i | 0 <= i < |parts| && i % 2 == 1 :: MatchedAt(s, p + Off(parts, i), parts[i])
  }

  /** `t` is what the alternation matches when tried at position `a` of `s`. */
  ghost predicate MatchedAt(s: String, a: nat, t: String) {
    a < |s| && MatchAt(s, a).Some? && t == s[a..MatchAt(s, a).value]
  }

  /** No text part of the split holds the start of a match: the search moves past a
      position only when the alternation fails there. */
  lemma {:induction false} SplitFromTexts(s: String, p: nat, q: nat)
    requires p <= q <= |s|
    requires NoMatchIn(s, p, q)
    ensures TextsFree(s, p, SplitFrom(s, p, q))
    decreases |s| - q
  {
    var parts := SplitFrom(s, p, q);
    if q == |s| {
      assert parts == [s[p..]] && |parts| == 1 && Off(parts, 0) == 0;
    } else {
      match MatchAt(s, q)
      case None =>
        assert parts == SplitFrom(s, p, q + 1);
        SplitFromTexts(s, p, q + 1);
      case Some(e) =>
        SplitFromTexts(s, e, e);
        TextsCons(s, p, q, e, SplitFrom(s, e, e), parts);
    }
  }

  /** A text part free of matches in front of a split whose text parts are free of them
      gives a split whose text parts are free of them. */
  lemma TextsCons(s: String, p: nat, q: nat, e: nat, rest: seq<String>, parts: seq<String>)
    requires p <= q < e <= |s| && NoMatchIn(s, p, q)
    requires TextsFree(s, e, rest)
    requires parts == [s[p..q], s[q..e]] + rest
    ensures TextsFree(s, p, parts)
  {
    forall i | 0 <= i < |parts| && i % 2 == 0
      ensures NoMatchIn(s, p + Off(parts, i), p + Off(parts, i) + |parts[i]|)
    {
      if i == 0 {
        OffFront(s[p..q], s[q..e], rest);
      } else {
        OffCons(s[p..q], s[q..e], rest, i);
        assert parts[i] == rest[i - 2];
      }
    }
  }

  /** Each token of the split is the match the alternation finds where the token starts. */
  lemma {:induction false} SplitFromMatches(s: String, p: nat, q: nat)
    requires p <= q <= |s|
    ensures TokensMatched(s, p, SplitFrom(s, p, q))
    decreases |s| - q
  {
    var parts := SplitFrom(s, p, q);
    if q == |s| {
      assert parts == [s[p..]] && |parts| == 1;
    } else {
      match MatchAt(s, q)
      case None =>
        assert parts == SplitFrom(s, p, q + 1);
        SplitFromMatches(s, p, q + 1);
      case Some(e) =>
        SplitFromMatches(s, e, e);
        MatchesCons(s, p, q, e, SplitFrom(s, e, e), parts);
    }
  }

  /** A match in front of a split whose tokens are matches gives a split whose tokens are
      matches. */
  lemma MatchesCons(s: String, p: nat, q: nat, e: nat, rest: seq<String>, parts: seq<String>)
    requires p <= q < e <= |s| && MatchAt(s, q) == Some(e)
    requires TokensMatched(s, e, rest)
    requires parts == [s[p..q], s[q..e]] + rest
    ensures TokensMatched(s, p, parts)
  {
    forall i | 0 <= i < |parts| && i % 2 == 1 ensures MatchedAt(s, p + Off(parts, i), parts[i]) {
      if i == 1 {
        OffFront(s[p..q], s[q..e], rest);
      } else {
        OffCons(s[p..q], s[q..e], rest, i);
        assert parts[i] == rest[i - 2];
      }
    }
  }

  /** The first two parts start at 0 and after the first. */
  lemma OffFront(a: String, b: String, rest: seq<String>)
    ensures Off([a, b] + rest, 0) == 0 && Off([a, b] + rest, 1) == |a|
  {
    assert ([a, b] + rest)[..1] == [a];
    assert Concat([a]) == a + Concat([]);
  }

  /** Behind two leading parts, part `i` starts after both of them. */
  lemma OffCons(a: String, b: String, rest: seq<String>, i: nat)
    requires 2 <= i <= |rest| + 2
    ensures Off([a, b] + rest, i) == |a| + |b| + Off(rest, i - 2)
  {
    assert ([a, b] + rest)[..i] == [a, b] + rest[..i - 2];
    ConcatTwo(a, b, rest[..i - 2]);
  }

  /** Concatenating two leading parts in front of the rest. */
  lemma ConcatTwo(a: String, b: String, rest: seq<String>)
    ensures Concat([a, b] + rest) == a + b + Concat(rest)
  {
    assert ([a, b] + rest)[1..] == [b] + rest;
    assert ([b] + rest)[1..] == rest;
  }

  /** `line.split(/(\*\*.*?\*\*|\*.*?\*)/g)`: an odd number of parts, alternating between
      text outside emphasis and complete emphasis tokens, concatenating back to the line,
      with each token the leftmost match and no match starting inside a text part. */
  function SplitEmphasis(line: String): (parts: seq<String>)
    ensures |parts| % 2 == 1
    ensures Concat(parts) == line
    ensures forall i | 0 <= i < |parts| && i % 2 == 1 :: IsToken(parts[i])
    ensures forall i | 0 <= i < |parts| && i % 2 == 0 :: NoMatchIn(line, Off(parts, i), Off(parts, i) + |parts[i]|)
    ensures forall i | 0 <= i < |parts| && i % 2 == 1 :: MatchedAt(line, Off(parts, i), parts[i])
  {
    SplitFromOdd(line, 0, 0);
    SplitFromTexts(line, 0, 0);
    SplitFromMatches(line, 0, 0);
    SplitFromConcat(line, 0, 0);
    SplitFromTokens(line, 0, 0);
    SplitFrom(line, 0, 0)
  }

  /** The classification of one part: `**x**` by `slice(2, -2)`, then `*x*` by
      `slice(1, -1)`, everything else verbatim. It tests the whole part, so a lone `*`
      or `**` outside a match also becomes an empty emphasis. */
  function ClassifyPart(part: String): (r: Segment)
    ensures r.Plain? <==> !(StartsWith(part, "*") && EndsWith(part, "*"))
    ensures r.Plain? ==> r.text == part
    ensures |r.text| <= |part|
    ensures r.Strong? && StartsWith(part, "**") && EndsWith(part, "**") && |part| >= 4 ==>
      part == "**" + r.text + "**"
    ensures r.Strong? && StartsWith(part, "**") && EndsWith(part, "**") && |part| < 4 ==> r.text == []
    ensures r.Strong? && !(StartsWith(part, "**") && EndsWith(part, "**")) && |part| >= 2 ==>
      part == "*" + r.text + "*"
    ensures r.Strong? && |part| < 2 ==> r.text == []
  {
    if StartsWith(part, "**") && EndsWith(part, "**") then
      var inner := Slice(part, 2, -2);
      assert |part| >= 4 ==> part == "**" + inner + "**";
      Strong(inner)
    else if StartsWith(part, "*") && EndsWith(part, "*") then
      var inner := Slice(part, 1, -1);
      assert |part| >= 2 ==> part == "*" + inner + "*";
      Strong(inner)
    else Plain(part)
  }

  /** Every emphasis token becomes emphasis holding exactly the text between its markers. */
  lemma TokenIsStrong(t: String)
    requires IsToken(t)
    ensures ClassifyPart(t).Strong?
    ensures t == "**" + ClassifyPart(t).text + "**" || t == "*" + ClassifyPart(t).text + "*"
  {
    if DoubleToken(t) {
      assert StartsWith(t, "**") && EndsWith(t, "**");
      assert t == "**" + t[2..|t| - 2] + "**";
    } else if |t| == 2 {
      assert t == "**";
      assert ClassifyPart(t).text == [];
    } else {
      assert t[1] != '*';
      assert !StartsWith(t, "**");
      assert StartsWith(t, "*") && EndsWith(t, "*");
      assert t == "*" + t[1..|t| - 1] + "*";
    }
  }

  /** The segments of a paragraph: each part classified, in order. */
  function RenderParts(parts: seq<String>): (segments: seq<Segment>)
    ensures |segments| == |parts|
    ensures forall i | 0 <= i < |parts| :: segments[i] == ClassifyPart(parts[i])
  {
    seq(|parts|, i requires 0 <= i < |parts| => ClassifyPart(parts[i]))
  }

  /** One line of the text. */
  function RenderLine(line: String): (b: Block)
    ensures b.Break? <==> IsBlank(line)
  {
    if IsBlank(line) then Break
    else Paragraph(RenderParts(SplitEmphasis(StripHeader(line))))
  }

  /** `renderMarkdown(text)`. */
  function Render(text: Option<String>): (r: Rendered)
    ensures r.Unavailable? <==> text == None || text == Some([])
    ensures r.Blocks? ==> |r.blocks| == Count(text.value, '\n') + 1
    ensures r.Blocks? ==> forall i | 0 <= i < |r.blocks| :: r.blocks[i] == RenderLine(Split(text.value, '\n')[i])
  {
    if text == None || text == Some([]) then Unavailable
    else
      Blocks(RenderLines(Split(text.value, '\n')))
  }

  /** Each line on its own, in order. */
  function RenderLines(lines: seq<String>): (blocks: seq<Block>)
    ensures |blocks| == |lines|
    ensures forall i | 0 <= i < |lines| :: blocks[i] == RenderLine(lines[i])
  {
    seq(|lines|, i requires 0 <= i < |lines| => RenderLine(lines[i]))
  }

  /** The lines rendered are exactly the lines of the text, in order: joining them back with
      `'\n'` gives the text, and a line's paragraph is made of the parts of that line with
      its header marker removed, whose concatenation is that line. */
  lemma RenderFollowsLines(text: String, i: nat)
    requires text != [] && i < Count(text, '\n') + 1
    ensures Join(Split(text, '\n'), '\n') == text
    ensures Render(Some(text)).blocks[i].Break? <==> IsBlank(Split(text, '\n')[i])
    ensures Render(Some(text)).blocks[i].Paragraph? ==>
      exists parts :: Concat(parts) == StripHeader(Split(text, '\n')[i])
        && Render(Some(text)).blocks[i].segments == RenderParts(parts)
  {
    var line := Split(text, '\n')[i];
    if !IsBlank(line) {
      var parts := SplitEmphasis(StripHeader(line));
      assert Render(Some(text)).blocks[i].segments == RenderParts(parts);
    }
  }

  /** Every emphasis the regular expression found is rendered as emphasis whose text is
      the token without its markers, and the text between matches is kept unless it
      itself starts and ends with `*`. */
  lemma ParagraphSegments(line: String, i: nat)
    requires !IsBlank(line)
    requires i < |SplitEmphasis(StripHeader(line))|
    ensures var part := SplitEmphasis(StripHeader(line))[i];
      && RenderLine(line).segments[i] == ClassifyPart(part)
      && (i % 2 == 1 ==>
            && RenderLine(line).segments[i].Strong?
            && (|| part == "**" + RenderLine(line).segments[i].text + "**"
                || part == "*" + RenderLine(line).segments[i].text + "*"))
  {
    var part := SplitEmphasis(StripHeader(line))[i];
    if i % 2 == 1 {
      TokenIsStrong(part);
    }
  }

  // ---------------------------------------------------------------------------
  // How the split treats text built from plain runs and emphasis

  /** Positions holding no `*` start no match, so the search simply moves past them. */
  lemma {:induction false} SkipPlain(s: String, p: nat, q: nat, q': nat)
    requires p <= q <= q' <= |s|
    requires forall j | q <= j < q' :: s[j] != '*'
    ensures SplitFrom(s, p, q) == SplitFrom(s, p, q')
    decreases q' - q
  {
    if q < q' {
      SkipPlain(s, p, q + 1, q');
    }
  }

  /** The lazy scan for `*` stops at the first asterisk. */
  lemma {:induction false} CloseSingleAt(s: String, m: nat, e: nat)
    requires m < e <= |s| && s[e - 1] == '*'
    requires forall j | m <= j < e - 1 :: s[j] != '*' && !IsLineTerminator(s[j])
    ensures CloseSingle(s, m) == Some(e)
    decreases e - m
  {
    if m < e - 1 {
      CloseSingleAt(s, m + 1, e);
    }
  }

  /** The lazy scan for `**` stops at the first pair of asterisks. */
  lemma {:induction false} CloseDoubleAt(s: String, m: nat, e: nat)
    requires m + 2 <= e <= |s| && s[e - 2] == '*' && s[e - 1] == '*'
    requires forall j | m <= j < e - 2 :: s[j] != '*' && !IsLineTerminator(s[j])
    ensures CloseDouble(s, m) == Some(e)
    decreases e - m
  {
    if m < e - 2 {
      CloseDoubleAt(s, m + 1, e);
    }
  }

  /** Text free of `*` and of line terminators, as inside an emphasis. */
  predicate IsInlineText(x: String) {
    forall j | 0 <= j < |x| :: x[j] != '*' && !IsLineTerminator(x[j])
  }

  /** A rest of the line without `*` is the last part. */
  lemma SplitPlainAt(s: String, k: nat)
    requires k <= |s| && '*' !in s[k..]
    ensures SplitFrom(s, k, k) == [s[k..]]
  {
    forall j | k <= j < |s| ensures s[j] != '*' {
      assert s[j] == s[k..][j - k];
    }
    SkipPlain(s, k, k, |s|);
  }

  /** Text without `*` is one part. */
  lemma SplitPlain(a: String)
    requires '*' !in a
    ensures SplitFrom(a, 0, 0) == [a]
  {
    assert a[0..] == a;
    SplitPlainAt(a, 0);
  }

  /** At a match the split emits the text before it and the match, then goes on after it. */
  lemma SplitAtMatch(s: String, p: nat, q: nat, e: nat)
    requires p <= q < |s| && MatchAt(s, q) == Some(e)
    ensures SplitFrom(s, p, q) == [s[p..q], s[q..e]] + SplitFrom(s, e, e)
  {
  }

  /** `**` opens a match of the first alternative that ends at the next `**`. */
  lemma DoubleMatchAt(s: String, q: nat, e: nat)
    requires q + 4 <= e <= |s| && s[q] == '*' && s[q + 1] == '*' && s[e - 2] == '*' && s[e - 1] == '*'
    requires forall j | q + 2 <= j < e - 2 :: s[j] != '*' && !IsLineTerminator(s[j])
    ensures MatchAt(s, q) == Some(e)
  {
    CloseDoubleAt(s, q + 2, e);
  }

  /** `*` followed by something other than `*` opens a match of the second alternative that
      ends at the next `*`. */
  lemma SingleMatchAt(s: String, q: nat, e: nat)
    requires q + 3 <= e <= |s| && s[q] == '*' && s[q + 1] != '*' && s[e - 1] == '*'
    requires forall j | q + 1 <= j < e - 1 :: s[j] != '*' && !IsLineTerminator(s[j])
    ensures MatchAt(s, q) == Some(e)
  {
    CloseSingleAt(s, q + 1, e);
  }

  /** From `k`, plain text `a` followed by a match of length `n` splits off as those two
      parts, and the split goes on after the match. */
  lemma SplitThenAt(s: String, k: nat, a: String, n: nat)
    requires 0 < n && k + |a| + n <= |s| && s[k..k + |a|] == a && '*' !in a
    requires MatchAt(s, k + |a|) == Some(k + |a| + n)
    ensures SplitFrom(s, k, k) == [a, s[k + |a|..k + |a| + n]] + SplitFrom(s, k + |a| + n, k + |a| + n)
  {
    forall j | k <= j < k + |a| ensures s[j] != '*' {
      assert s[j] == a[j - k];
    }
    SkipPlain(s, k, k, k + |a|);
    SplitAtMatch(s, k, k + |a|, k + |a| + n);
  }

  /** From `k`, plain text `a` followed by `**x**` splits off as those two parts. */
  lemma SplitDoubleAt(s: String, k: nat, a: String, x: String)
    requires k + |a| + |x| + 4 <= |s|
    requires s[k..k + |a|] == a && s[k + |a|..k + |a| + |x| + 4] == "**" + x + "**"
    requires '*' !in a && IsInlineText(x)
    ensures var e := k + |a| + |x| + 4;
      SplitFrom(s, k, k) == [a, "**" + x + "**"] + SplitFrom(s, e, e)
  {
    var q, e := k + |a|, k + |a| + |x| + 4;
    var w := s[q..e];
    assert forall j | q <= j < e :: s[j] == w[j - q];
    assert s[q] == '*' && s[q + 1] == '*' && s[e - 2] == '*' && s[e - 1] == '*';
    forall j | q + 2 <= j < e - 2 ensures s[j] != '*' && !IsLineTerminator(s[j]) {
      assert s[j] == x[j - q - 2];
    }
    DoubleMatchAt(s, q, e);
    SplitThenAt(s, k, a, |x| + 4);
  }

  /** From `k`, plain text `b` followed by `*y*`, `y` not empty, splits off as those two
      parts. */
  lemma SplitSingleAt(s: String, k: nat, b: String, y: String)
    requires k + |b| + |y| + 2 <= |s|
    requires s[k..k + |b|] == b && s[k + |b|..k + |b| + |y| + 2] == "*" + y + "*"
    requires '*' !in b && IsInlineText(y) && y != []
    ensures var e := k + |b| + |y| + 2;
      SplitFrom(s, k, k) == [b, "*" + y + "*"] + SplitFrom(s, e, e)
  {
    var q, e := k + |b|, k + |b| + |y| + 2;
    var w := s[q..e];
    assert forall j | q <= j < e :: s[j] == w[j - q];
    assert s[q] == '*' && s[q + 1] == y[0] && s[e - 1] == '*';
    forall j | q + 1 <= j < e - 1 ensures s[j] != '*' && !IsLineTerminator(s[j]) {
      assert s[j] == y[j - q - 1];
    }
    SingleMatchAt(s, q, e);
    SplitThenAt(s, k, b, |y| + 2);
  }

  /** A paragraph that alternates plain text without asterisks and emphasis over inline
      text, beginning and ending with (possibly empty) plain text. */
  ghost predicate IsSimpleParagraph(segments: seq<Segment>) {
    && |segments| % 2 == 1
    && forall i | 0 <= i < |segments| ::
         if i % 2 == 0 then segments[i].Plain? && '*' !in segments[i].text
         else segments[i].Strong? && IsInlineText(segments[i].text)
  }

  /** Writes a paragraph back as text, emphasis as `**x**`. */
  function Markup(segments: seq<Segment>): String {
    if segments == [] then [] else Piece(segments[0]) + Markup(segments[1..])
  }

  function Piece(segment: Segment): String {
    match segment
    case Plain(t) => t
    case Strong(x) => "**" + x + "**"
  }

  /** Rendering inverts `Markup` on simple paragraphs: writing the paragraph out with
      `**` and splitting and classifying it again gives back the same segments. */
  lemma RenderMarkup(segments: seq<Segment>)
    requires IsSimpleParagraph(segments)
    ensures RenderParts(SplitEmphasis(Markup(segments))) == segments
  {
    SplitMarkup(segments);
  }

  lemma SplitMarkup(segments: seq<Segment>)
    requires IsSimpleParagraph(segments)
    ensures RenderParts(SplitFrom(Markup(segments), 0, 0)) == segments
  {
    var s := Markup(segments);
    assert s[0..] == s;
    SplitMarkupAt(s, 0, segments);
  }

  /** The induction behind `RenderMarkup`, over the paragraph written out from `k` on. */
  lemma {:induction false} SplitMarkupAt(s: String, k: nat, segments: seq<Segment>)
    requires IsSimpleParagraph(segments) && k <= |s| && s[k..] == Markup(segments)
    ensures RenderParts(SplitFrom(s, k, k)) == segments
    decreases |segments|
  {
    if |segments| == 1 {
      SplitMarkupPlain(s, k, segments);
    } else {
      SimpleParagraphRest(segments);
      var e := SplitMarkupStep(s, k, segments);
      SplitMarkupAt(s, e, segments[2..]);
      SplitMarkupCons(s, k, e, segments);
    }
  }

  lemma SplitMarkupPlain(s: String, k: nat, segments: seq<Segment>)
    requires |segments| == 1 && segments[0].Plain? && '*' !in segments[0].text
    requires k <= |s| && s[k..] == Markup(segments)
    ensures RenderParts(SplitFrom(s, k, k)) == segments
  {
    var a := segments[0].text;
    assert Markup(segments) == Piece(segments[0]) + Markup([]) == a;
    SplitPlainAt(s, k);
    PlainRendersPlain(a);
  }

  /** Where the written-out rest of the paragraph starts after its first two segments. */
  lemma SplitMarkupStep(s: String, k: nat, segments: seq<Segment>) returns (e: nat)
    requires |segments| >= 2 && segments[0].Plain? && segments[1].Strong?
    requires '*' !in segments[0].text && IsInlineText(segments[1].text)
    requires k <= |s| && s[k..] == Markup(segments)
    ensures e <= |s| && s[e..] == Markup(segments[2..])
    ensures SplitFrom(s, k, k) == [segments[0].text, "**" + segments[1].text + "**"] + SplitFrom(s, e, e)
  {
    e := MarkupRest(s, k, segments);
    SplitDoubleTo(s, k, segments[0].text, segments[1].text, e);
  }

  lemma MarkupRest(s: String, k: nat, segments: seq<Segment>) returns (e: nat)
    requires |segments| >= 2 && segments[0].Plain? && segments[1].Strong?
    requires k <= |s| && s[k..] == Markup(segments)
    ensures e == k + |segments[0].text| + |segments[1].text| + 4 <= |s|
    ensures s[k..k + |segments[0].text|] == segments[0].text
    ensures s[k + |segments[0].text|..e] == "**" + segments[1].text + "**"
    ensures s[e..] == Markup(segments[2..])
  {
    var a, t := segments[0].text, Piece(segments[1]);
    MarkupCons(segments);
    SliceOfSuffix(s, k, a, t + Markup(segments[2..]));
    SliceOfSuffix(s, k + |a|, t, Markup(segments[2..]));
    e := k + |a| + |t|;
  }

  lemma SplitDoubleTo(s: String, k: nat, a: String, x: String, e: nat)
    requires '*' !in a && IsInlineText(x)
    requires e == k + |a| + |x| + 4 <= |s|
    requires s[k..k + |a|] == a && s[k + |a|..e] == "**" + x + "**"
    ensures SplitFrom(s, k, k) == [a, "**" + x + "**"] + SplitFrom(s, e, e)
  {
    SplitDoubleAt(s, k, a, x);
  }

  lemma SliceOfSuffix(s: String, k: nat, w: String, r: String)
    requires k <= |s| && s[k..] == w + r
    ensures k + |w| <= |s| && s[k..k + |w|] == w && s[k + |w|..] == r
  {
    assert s[k..k + |w|] == s[k..][..|w|];
    assert s[k + |w|..] == s[k..][|w|..];
  }

  lemma SplitMarkupCons(s: String, k: nat, e: nat, segments: seq<Segment>)
    requires |segments| >= 2 && segments[0].Plain? && segments[1].Strong?
    requires '*' !in segments[0].text && IsInlineText(segments[1].text)
    requires k <= e <= |s|
    requires SplitFrom(s, k, k) == [segments[0].text, "**" + segments[1].text + "**"] + SplitFrom(s, e, e)
    requires RenderParts(SplitFrom(s, e, e)) == segments[2..]
    ensures RenderParts(SplitFrom(s, k, k)) == segments
  {
    assert segments == [Plain(segments[0].text), Strong(segments[1].text)] + segments[2..];
    RenderPartsCons(segments[0].text, segments[1].text, SplitFrom(s, e, e), segments[2..]);
  }

  /** Plain text and `**x**` in front of further parts render as plain text and emphasis in
      front of what those parts render as. */
  lemma RenderPartsCons(a: String, x: String, rest: seq<String>, segments: seq<Segment>)
    requires '*' !in a && RenderParts(rest) == segments
    ensures RenderParts([a, "**" + x + "**"] + rest) == [Plain(a), Strong(x)] + segments
  {
    PlainRendersPlain(a);
    DoubleRendersStrong(x);
    var front := [a, "**" + x + "**"];
    assert RenderParts(front) == [Plain(a), Strong(x)];
    RenderPartsAppend(front, rest);
  }

  lemma SimpleParagraphRest(segments: seq<Segment>)
    requires IsSimpleParagraph(segments) && |segments| > 1
    ensures IsSimpleParagraph(segments[2..])
  {
    var rest := segments[2..];
    forall i | 0 <= i < |rest| ensures
      if i % 2 == 0 then rest[i].Plain? && '*' !in rest[i].text
      else rest[i].Strong? && IsInlineText(rest[i].text)
    {
      assert rest[i] == segments[i + 2];
    }
  }

  lemma MarkupCons(segments: seq<Segment>)
    requires |segments| >= 2
    ensures Markup(segments) == Piece(segments[0]) + (Piece(segments[1]) + Markup(segments[2..]))
  {
    assert segments[1..][1..] == segments[2..];
  }

  lemma RenderPartsAppend(p: seq<String>, q: seq<String>)
    ensures RenderParts(p + q) == RenderParts(p) + RenderParts(q)
  {
    assert forall i | |p| <= i < |p + q| :: (p + q)[i] == q[i - |p|];
  }

  /** Text without `*` stays verbatim. */
  lemma PlainRendersPlain(a: String)
    requires '*' !in a
    ensures ClassifyPart(a) == Plain(a)
  {
    if a != [] {
      assert a[..1] == [a[0]];
    }
  }

  /** `**x**` renders as emphasis holding `x`. */
  lemma DoubleRendersStrong(x: String)
    ensures ClassifyPart("**" + x + "**") == Strong(x)
  {
    var t := "**" + x + "**";
    assert t[..2] == "**" && t[|t| - 2..] == "**";
    assert t[2..|t| - 2] == x;
  }

  /** `*y*` renders as emphasis holding `y`, when `y` has no asterisk. */
  lemma SingleRendersStrong(y: String)
    requires '*' !in y
    ensures ClassifyPart("*" + y + "*") == Strong(y)
  {
    var u := "*" + y + "*";
    assert u[..1] == "*" && u[|u| - 1..] == "*";
    if y == [] {
      assert u == "**";
      assert Slice(u, 2, -2) == [];
    } else {
      assert u[1] == y[0];
      assert u[1..|u| - 1] == y;
    }
  }

  /** `"**a"`: the first alternative finds no closing `**`, so the second alternative matches
      the two asterisks by themselves, and they render as an empty emphasis before `a`. */
  lemma UnclosedDouble(line: String)
    requires line == "**a"
    ensures SplitEmphasis(line) == ["", "**", "a"]
    ensures RenderLine(line) == Paragraph([Plain(""), Strong(""), Plain("a")])
  {
    UnclosedDoubleSplit(line);
    HashRunIs(line, 0);
    assert !IsWhitespace(line[0]);
    UnclosedDoubleRender(["", "**", "a"]);
  }

  lemma UnclosedDoubleSplit(line: String)
    requires line == "**a"
    ensures SplitFrom(line, 0, 0) == ["", "**", "a"]
  {
    assert CloseDouble(line, 2) == None;
    assert MatchAt(line, 0) == Some(2);
    SplitAtMatch(line, 0, 0, 2);
    SplitPlainAt(line, 2);
    assert line[0..0] == "" && line[0..2] == "**" && line[2..] == "a";
  }

  lemma UnclosedDoubleRender(parts: seq<String>)
    requires parts == ["", "**", "a"]
    ensures RenderParts(parts) == [Plain(""), Strong(""), Plain("a")]
  {
    SingleRendersStrong(parts[0]);
    assert "*" + parts[0] + "*" == parts[1];
    PlainRendersPlain(parts[0]);
    PlainRendersPlain(parts[2]);
  }

  /** A lone `*` is no match of the regular expression, yet as a part it starts and ends
      with `*`, so it becomes an empty emphasis. */
  lemma LoneAsterisk(line: String)
    requires line == "*"
    ensures RenderLine(line) == Paragraph([Strong("")])
  {
    assert MatchAt(line, 0) == None;
    assert SplitFrom(line, 0, 0) == [line];
    HashRunIs(line, 0);
    assert !IsWhitespace(line[0]);
    assert Slice(line, 1, -1) == [];
    assert !StartsWith(line, "**");
  }

  // ---------------------------------------------------------------------------
  // A worked two-line example. Its steps are separate lemmas so that each
  // obligation about the literal text stays small.

  /** Text of two lines renders as the two lines, each on its own. */
  lemma RenderTwoLines(text: String, first: String, second: String)
    requires text == first + ['\n'] + second && '\n' !in first && '\n' !in second
    ensures Render(Some(text)) == Blocks([RenderLine(first), RenderLine(second)])
  {
    SplitTwoLines(text, first, second);
    RenderOfTwoLines(text, first, second);
  }

  lemma RenderOfTwoLines(text: String, first: String, second: String)
    requires text != [] && Split(text, '\n') == [first, second]
    ensures Render(Some(text)) == Blocks([RenderLine(first), RenderLine(second)])
  {
    assert Render(Some(text)) == Blocks(RenderLines([first, second]));
    RenderLinesTwo(first, second);
  }

  lemma RenderLinesTwo(first: String, second: String)
    ensures RenderLines([first, second]) == [RenderLine(first), RenderLine(second)]
  {
    var bs := RenderLines([first, second]);
    assert bs[0] == RenderLine(first) && bs[1] == RenderLine(second);
  }

  lemma SplitTwoLines(text: String, first: String, second: String)
    requires text == first + ['\n'] + second && '\n' !in first && '\n' !in second
    ensures Split(text, '\n') == [first, second]
  {
    SplitAfterPiece(first, second, '\n');
    SplitPiece(second, '\n');
  }

  /** A header line followed by a line with both kinds of emphasis: the header becomes a
      plain paragraph, and both emphasised spans lose their asterisks. */
  lemma HeaderAndEmphasis(first: String, second: String)
    requires first == "# T" && second == "**a** or *b*"
    ensures Render(Some(first + ['\n'] + second)) == Blocks([
      Paragraph([Plain("T")]),
      Paragraph([Plain(""), Strong("a"), Plain(" or "), Strong("b"), Plain("")])])
  {
    RenderTwoLines(first + ['\n'] + second, first, second);
    FirstLine(first);
    SecondLine(second);
  }

  lemma FirstLine(line: String)
    requires line == "# T"
    ensures RenderLine(line) == Paragraph([Plain("T")])
  {
    StripHeaderOnHeaders(line, "#####\t\tF");
    assert !IsWhitespace(line[0]);
    PlainParagraph(StripHeader(line));
  }

  lemma PlainParagraph(t: String)
    requires t == "T"
    ensures RenderParts(SplitEmphasis(t)) == [Plain("T")]
  {
    SplitPlain(t);
    PlainRendersPlain(t);
  }

  lemma SecondLine(line: String)
    requires line == "**a** or *b*"
    ensures RenderLine(line)
      == Paragraph([Plain(""), Strong("a"), Plain(" or "), Strong("b"), Plain("")])
  {
    HashRunIs(line, 0);
    assert !IsWhitespace(line[0]);
    var parts := ["", "**a**", " or ", "*b*", ""];
    SecondLineParts(line, parts);
    SecondLinePartsRender(parts);
  }

  lemma SecondLineParts(line: String, parts: seq<String>)
    requires line == "**a** or *b*" && parts == ["", "**a**", " or ", "*b*", ""]
    ensures SplitEmphasis(line) == parts
  {
    SecondLineHead(line);
    SecondLineMiddle(line);
    SplitPlainAt(line, 12);
  }

  lemma SecondLineHead(line: String)
    requires line == "**a** or *b*"
    ensures SplitFrom(line, 0, 0) == ["", "**a**"] + SplitFrom(line, 5, 5)
  {
    var x := "a";
    assert line[0..0] == [] && line[0..5] == "**" + x + "**";
    SplitDoubleAt(line, 0, [], x);
    assert "**" + x + "**" == "**a**";
  }

  lemma SecondLineMiddle(line: String)
    requires line == "**a** or *b*"
    ensures SplitFrom(line, 5, 5) == [" or ", "*b*"] + SplitFrom(line, 12, 12)
  {
    var b, y := " or ", "b";
    assert line[5..9] == b && line[9..12] == "*" + y + "*";
    SplitSingleAt(line, 5, b, y);
    assert "*" + y + "*" == "*b*";
  }

  lemma SecondLinePartsRender(parts: seq<String>)
    requires parts == ["", "**a**", " or ", "*b*", ""]
    ensures RenderParts(parts) == [Plain(""), Strong("a"), Plain(" or "), Strong("b"), Plain("")]
  {
    var x, b, y, e := "a", " or ", "b", "";
    assert "**" + x + "**" == "**a**" && "*" + y + "*" == "*b*";
    assert parts == [e, "**" + x + "**", b, "*" + y + "*", e];
    RenderAlternating(e, x, b, y, e);
  }

  /** Plain text, a double-marked span, plain text, a single-marked span and plain text
      render as the five segments they spell. */
  lemma RenderAlternating(a: String, x: String, b: String, y: String, c: String)
    requires '*' !in a && '*' !in b && '*' !in y && '*' !in c
    ensures RenderParts([a, "**" + x + "**", b, "*" + y + "*", c])
      == [Plain(a), Strong(x), Plain(b), Strong(y), Plain(c)]
  {
    var d, u := "**" + x + "**", "*" + y + "*";
    PlainRendersPlain(a);
    DoubleRendersStrong(x);
    PlainRendersPlain(b);
    SingleRendersStrong(y);
    PlainRendersPlain(c);
    assert RenderParts([a, d, b]) == [Plain(a), Strong(x), Plain(b)] by {
      var r := RenderParts([a, d, b]);
      assert r[0] == ClassifyPart(a) && r[1] == ClassifyPart(d) && r[2] == ClassifyPart(b);
    }
    assert RenderParts([u, c]) == [Strong(y), Plain(c)] by {
      var r := RenderParts([u, c]);
      assert r[0] == ClassifyPart(u) && r[1] == ClassifyPart(c);
    }
    RenderPartsAppend([a, d, b], [u, c]);
    assert [a, d, b] + [u, c] == [a, d, b, u, c];
  }
}
