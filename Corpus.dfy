/**
  Parsing of one corpus line into a (password, weight) entry, as done by
  `line.strip().split()` followed by the "count password" / "password" rule.
  Whitespace is the fixed set of characters Python's `str.isspace` accepts;
  digits are the ASCII digits '0'..'9'.
 */
module Corpus {
  import opened Wrappers

  /** A parsed corpus line: the password and the weight it is trained with. */
  datatype Entry = Entry(password: string, weight: nat)

  predicate IsSpace(c: char) {
    || c == ' ' || ('\t' <= c <= '\r') || ('\U{1c}' <= c <= '\U{1f}')
    || c == '\U{85}' || c == '\U{a0}' || c == '\U{1680}' || ('\U{2000}' <= c <= '\U{200a}')
    || c == '\U{2028}' || c == '\U{2029}' || c == '\U{202f}' || c == '\U{205f}' || c == '\U{3000}'
  }

  predicate AllSpace(s: string) {
    forall k :: 0 <= k < |s| ==> IsSpace(s[k])
  }

  /** A token as `str.split()` produces it: non-empty and free of whitespace. */
  predicate IsToken(t: string) {
    t != [] && forall k :: 0 <= k < |t| ==> !IsSpace(t[k])
  }

  predicate IsDigit(c: char) {
    '0' <= c <= '9'
  }

  /** `str.isdigit` on ASCII text: non-empty and all digits. */
  predicate IsDigits(t: string) {
    t != [] && forall k :: 0 <= k < |t| ==> IsDigit(t[k])
  }

  // ---------------------------------------------------------------- strip
  //
  // The facts about stripping and splitting are lemmas rather than
  // postconditions, so that a proof that merely mentions a parsed line does
  // not carry them.

  function TrimLeft(s: string): string {
    if s != [] && IsSpace(s[0]) then TrimLeft(s[1..]) else s
  }

  lemma {:induction false} TrimLeftSpec(s: string)
    ensures var r := TrimLeft(s);
      && |r| <= |s| && r == s[|s| - |r|..]
      && (r == [] || !IsSpace(r[0]))
      && AllSpace(s[..|s| - |r|])
  {
    if s != [] && IsSpace(s[0]) {
      TrimLeftSpec(s[1..]);
      var r := TrimLeft(s[1..]);
      assert s[1..][..|s| - 1 - |r|] == s[1..|s| - |r|];
    } else {
      assert s[..0] == [];
    }
  }

  function TrimRight(s: string): string {
    if s != [] && IsSpace(s[|s| - 1]) then TrimRight(s[..|s| - 1]) else s
  }

  lemma {:induction false} TrimRightSpec(s: string)
    ensures var r := TrimRight(s);
      && |r| <= |s| && r == s[..|r|]
      && (r == [] || !IsSpace(r[|r| - 1]))
      && AllSpace(s[|r|..])
  {
    if s != [] && IsSpace(s[|s| - 1]) {
      TrimRightSpec(s[..|s| - 1]);
      var r := TrimRight(s[..|s| - 1]);
      assert forall k :: |r| <= k < |s| - 1 ==> s[k] == s[..|s| - 1][|r|..][k - |r|];
    } else {
      assert s[..|s|] == s;
    }
  }

  /** `str.strip()`: the line without its leading and trailing whitespace. */
  function Strip(s: string): string {
    TrimRight(TrimLeft(s))
  }

  /**
    Stripping removes a whitespace prefix and a whitespace suffix and keeps
    the middle as it is; it leaves nothing exactly for a blank line, and
    otherwise no whitespace at either end.
   */
  lemma StripSpec(s: string)
    ensures var r := Strip(s);
      && (exists i, j :: 0 <= i <= j <= |s| && r == s[i..j] && AllSpace(s[..i]) && AllSpace(s[j..]))
      && (r == [] <==> AllSpace(s))
      && (r != [] ==> !IsSpace(r[0]) && !IsSpace(r[|r| - 1]))
  {
    var l := TrimLeft(s);
    var r := TrimRight(l);
    TrimLeftSpec(s);
    TrimRightSpec(l);
    var i := |s| - |l|;
    var j := i + |r|;
    assert r == s[i..j];
    assert s[j..] == l[|r|..];
    if r == [] {
      assert l == [];
      assert s[..|s|] == s;
    } else {
      assert r[0] == s[|s| - |l|];
    }
  }

  // ---------------------------------------------------------------- split

  /** Length of the token at the front of `s` (0 when `s` starts with whitespace). */
  function TokenLength(s: string): (n: nat)
    ensures n <= |s|
  {
    if s == [] || IsSpace(s[0]) then 0 else 1 + TokenLength(s[1..])
  }

  lemma {:induction false} TokenLengthSpec(s: string)
    ensures var n := TokenLength(s);
      && (forall k :: 0 <= k < n ==> !IsSpace(s[k]))
      && (n < |s| ==> IsSpace(s[n]))
  {
    if s != [] && !IsSpace(s[0]) {
      TokenLengthSpec(s[1..]);
    }
  }

  /** `str.split()` with no argument: the maximal runs of non-whitespace. */
  function Split(s: string): seq<string>
    decreases |s|
  {
    if s == [] then []
    else if IsSpace(s[0]) then Split(s[1..])
    else
      var n := TokenLength(s);
      [s[..n]] + Split(s[n..])
  }

  /** Every piece of a split is a token, and only a blank string splits into nothing. */
  lemma {:induction false} SplitSpec(s: string)
    ensures var ts := Split(s);
      && (forall i :: 0 <= i < |ts| ==> IsToken(ts[i]))
      && (ts == [] <==> AllSpace(s))
    decreases |s|
  {
    if s == [] {
    } else if IsSpace(s[0]) {
      SplitSpec(s[1..]);
      if AllSpace(s[1..]) {
        assert forall k :: 1 <= k < |s| ==> s[k] == s[1..][k - 1];
      }
    } else {
      var n := TokenLength(s);
      TokenLengthSpec(s);
      SplitSpec(s[n..]);
      var ts := Split(s);
      assert ts == [s[..n]] + Split(s[n..]);
      assert IsToken(s[..n]);
      assert !AllSpace(s);
    }
  }

  /** Leading whitespace, however much, does not change the split. */
  lemma {:induction false} SplitSpaceFront(w: string, s: string)
    requires AllSpace(w)
    ensures Split(w + s) == Split(s)
    decreases |w|
  {
    if w != [] {
      assert (w + s)[0] == w[0] && (w + s)[1..] == w[1..] + s;
      assert AllSpace(w[1..]) by {
        forall k | 0 <= k < |w| - 1 ensures IsSpace(w[1..][k]) {
          assert w[1..][k] == w[k + 1];
        }
      }
      SplitSpaceFront(w[1..], s);
    } else {
      assert w + s == s;
    }
  }

  /** A token followed by any non-empty run of whitespace is split off as it is, and the run is dropped. */
  lemma SplitTokenFront(t: string, w: string, s: string)
    requires IsToken(t) && w != [] && AllSpace(w)
    ensures Split(t + w + s) == [t] + Split(s)
  {
    var x := t + w + s;
    assert x == t + (w + s);
    TokenLengthOfToken(t, w + s);
    assert x[..|t|] == t && x[|t|..] == w + s;
    SplitSpaceFront(w, s);
  }

  /** `" ".join(ts)`. */
  function Join(ts: seq<string>): string {
    if ts == [] then []
    else if |ts| == 1 then ts[0]
    else ts[0] + " " + Join(ts[1..])
  }

  // --------------------------------------------------------------- digits

  function DigitValue(c: char): nat
    requires IsDigit(c)
  {
    (c - '0') as nat
  }

  function DigitChar(d: nat): (c: char)
    requires d < 10
    ensures IsDigit(c) && DigitValue(c) == d
  {
    ('0' as int + d) as char
  }

  /** `int(t)` for a string of ASCII digits (leading zeros allowed). */
  function DigitsValue(t: string): nat
    requires forall k :: 0 <= k < |t| ==> IsDigit(t[k])
  {
    if t == [] then 0 else DigitsValue(t[..|t| - 1]) * 10 + DigitValue(t[|t| - 1])
  }

  /** The decimal numeral of `w`, as a corpus file writes a count. */
  function Numeral(w: nat): (t: string)
    ensures IsDigits(t)
  {
    if w < 10 then [DigitChar(w)] else Numeral(w / 10) + [DigitChar(w % 10)]
  }

  // ---------------------------------------------------------- parse a line

  /**
    One corpus line (lib_SMML.py:36-46, repeated at 125-133): a blank line
    gives None; "<digits> <tokens...>" gives the tokens joined by single
    spaces with the digits as weight; anything else is the whole stripped
    line with weight 1.
   */
  function ParseLine(line: string): (r: Option<Entry>)
    ensures r.Some? ==> r.value.password != []
  {
    var parts := Split(Strip(line));
    SplitSpec(Strip(line));
    StripSpec(line);
    if parts == [] then None
    else if |parts| >= 2 && IsDigits(parts[0]) then
      JoinIsTrimmed(parts[1..]);
      Some(Entry(Join(parts[1..]), DigitsValue(parts[0])))
    else
      Some(Entry(Strip(line), 1))
  }

  /** Exactly the blank lines (whitespace only) are skipped. */
  lemma ParseLineBlank(line: string)
    ensures ParseLine(line).None? <==> AllSpace(line)
  {
    SplitSpec(Strip(line));
    StripSpec(line);
  }

  /** The "count password" line a corpus writer would emit for an entry. */
  function FormatLine(e: Entry): string {
    Numeral(e.weight) + " " + e.password
  }

  // --------------------------------------------------------------- lemmas

  lemma {:induction false} TokenLengthOfToken(t: string, rest: string)
    requires IsToken(t) && (rest == [] || IsSpace(rest[0]))
    ensures TokenLength(t + rest) == |t|
  {
    if |t| == 1 {
      assert (t + rest)[1..] == rest;
    } else {
      assert (t + rest)[1..] == t[1..] + rest;
      TokenLengthOfToken(t[1..], rest);
    }
  }

  /** Splitting single-space-joined tokens gives the tokens back. */
  lemma {:induction false} SplitJoin(ts: seq<string>)
    requires forall i :: 0 <= i < |ts| ==> IsToken(ts[i])
    ensures Split(Join(ts)) == ts
  {
    if |ts| == 1 {
      var t := ts[0];
      TokenLengthOfToken(t, []);
      assert t + [] == t;
      assert t[..|t|] == t && t[|t|..] == [];
    } else if |ts| > 1 {
      var t, j := ts[0], Join(ts[1..]);
      var s := t + " " + j;
      assert s == t + (" " + j);
      TokenLengthOfToken(t, " " + j);
      assert s[..|t|] == t && s[|t|..] == " " + j && (" " + j)[1..] == j;
      SplitJoin(ts[1..]);
      assert ts == [t] + ts[1..];
    }
  }

  /** Joined tokens neither start nor end with whitespace. */
  lemma {:induction false} JoinIsTrimmed(ts: seq<string>)
    requires |ts| >= 1 && forall i :: 0 <= i < |ts| ==> IsToken(ts[i])
    ensures Join(ts) != [] && !IsSpace(Join(ts)[0]) && !IsSpace(Join(ts)[|Join(ts)| - 1])
  {
    if |ts| > 1 {
      JoinIsTrimmed(ts[1..]);
      var j := Join(ts[1..]);
      assert Join(ts) == ts[0] + " " + j;
      assert Join(ts)[|Join(ts)| - 1] == j[|j| - 1];
    }
  }

  lemma StripTrimmed(s: string)
    requires s != [] && !IsSpace(s[0]) && !IsSpace(s[|s| - 1])
    ensures Strip(s) == s
  {
  }

  /** Reading back the digits of a numeral gives the number. */
  lemma {:induction false} NumeralValue(w: nat)
    ensures DigitsValue(Numeral(w)) == w
  {
    if w >= 10 {
      NumeralValue(w / 10);
      var t := Numeral(w);
      assert t[..|t| - 1] == Numeral(w / 10);
    }
  }

  /**
    A "count password" line written for an entry whose password is already in
    the form the parser produces (words separated by single spaces, nothing
    around them) parses back to that entry.
   */
  lemma ParseFormatLine(e: Entry)
    requires e.password != [] && Join(Split(e.password)) == e.password
    ensures ParseLine(FormatLine(e)) == Some(e)
  {
    var ts := Split(e.password);
    SplitSpec(e.password);
    assert ts != [];
    var d := Numeral(e.weight);
    var line := FormatLine(e);
    assert line == Join([d] + ts) by {
      assert ([d] + ts)[1..] == ts;
    }
    assert IsToken(d);
    JoinIsTrimmed([d] + ts);
    StripTrimmed(line);
    SplitJoin([d] + ts);
    assert ([d] + ts)[1..] == ts;
    NumeralValue(e.weight);
  }

  /** Helper: the counted branch of `ParseLine`, for a line whose split is known. */
  lemma ParseCountParts(line: string, d: string, ts: seq<string>)
    requires Split(Strip(line)) == [d] + ts && IsDigits(d) && ts != []
    ensures ParseLine(line) == Some(Entry(Join(ts), DigitsValue(d)))
  {
    assert ([d] + ts)[0] == d && ([d] + ts)[1..] == ts;
  }

  lemma {:induction false} TrimLeftSpace(w: string, t: string)
    requires AllSpace(w) && (t == [] || !IsSpace(t[0]))
    ensures TrimLeft(w + t) == t
    decreases |w|
  {
    if w == [] {
      assert w + t == t;
    } else {
      assert (w + t)[0] == w[0] && (w + t)[1..] == w[1..] + t;
      assert AllSpace(w[1..]) by {
        forall k | 0 <= k < |w| - 1 ensures IsSpace(w[1..][k]) {
          assert w[1..][k] == w[k + 1];
        }
      }
      TrimLeftSpace(w[1..], t);
    }
  }

  lemma {:induction false} TrimRightSpace(t: string, w: string)
    requires AllSpace(w) && (t == [] || !IsSpace(t[|t| - 1]))
    ensures TrimRight(t + w) == t
    decreases |w|
  {
    if w == [] {
      assert t + w == t;
    } else {
      var u := w[..|w| - 1];
      assert (t + w)[|t + w| - 1] == w[|w| - 1] && (t + w)[..|t + w| - 1] == t + u;
      assert AllSpace(u) by {
        forall k | 0 <= k < |u| ensures IsSpace(u[k]) {
          assert u[k] == w[k];
        }
      }
      TrimRightSpace(t, u);
    }
  }

  /** Surrounding whitespace of any length is what `strip()` removes. */
  lemma StripPadded(w1: string, t: string, w2: string)
    requires AllSpace(w1) && AllSpace(w2)
    requires t != [] && !IsSpace(t[0]) && !IsSpace(t[|t| - 1])
    ensures Strip(w1 + t + w2) == t
  {
    assert w1 + t + w2 == w1 + (t + w2);
    assert (t + w2)[0] == t[0];
    TrimLeftSpace(w1, t + w2);
    TrimRightSpace(t, w2);
  }

  /**
    Tokens with a non-empty run of whitespace between each neighbouring
    pair: `ts[0] + ws[0] + ts[1] + ... + ts[|ts| - 1]`.
   */
  function Spaced(ts: seq<string>, ws: seq<string>): string
    requires |ts| == |ws| + 1
    decreases |ts|
  {
    if |ts| == 1 then ts[0] else ts[0] + ws[0] + Spaced(ts[1..], ws[1..])
  }

  predicate AllTokens(ts: seq<string>) {
    forall i :: 0 <= i < |ts| ==> IsToken(ts[i])
  }

  predicate AllGaps(ws: seq<string>) {
    forall i :: 0 <= i < |ws| ==> ws[i] != [] && AllSpace(ws[i])
  }

  /** `split()` of tokens with whitespace runs between them gives the tokens back. */
  lemma {:induction false} SpacedSplit(ts: seq<string>, ws: seq<string>)
    requires |ts| == |ws| + 1 && AllTokens(ts) && AllGaps(ws)
    ensures Split(Spaced(ts, ws)) == ts
    decreases |ts|
  {
    if |ts| == 1 {
      SplitJoin(ts);
    } else {
      assert IsToken(ts[0]) && ws[0] != [] && AllSpace(ws[0]);
      SpacedSplit(ts[1..], ws[1..]);
      SplitTokenFront(ts[0], ws[0], Spaced(ts[1..], ws[1..]));
      assert ts == [ts[0]] + ts[1..];
    }
  }

  /** Spaced tokens begin with the first token's first character and end with the last token's last. */
  lemma {:induction false} SpacedEnds(ts: seq<string>, ws: seq<string>)
    requires |ts| == |ws| + 1 && AllTokens(ts)
    ensures var s, t := Spaced(ts, ws), ts[|ts| - 1];
      s != [] && s[0] == ts[0][0] && s[|s| - 1] == t[|t| - 1]
    decreases |ts|
  {
    assert IsToken(ts[0]);
    if |ts| > 1 {
      SpacedEnds(ts[1..], ws[1..]);
    }
  }

  /**
    A count followed by any number of words, with any whitespace around and
    between them: the weight is the count and the password is the words
    joined by single spaces.
   */
  lemma ParseCountedWords(w1: string, d: string, w2: string, ts: seq<string>, ws: seq<string>, w4: string)
    requires IsDigits(d) && |ts| == |ws| + 1 && AllTokens(ts) && AllGaps(ws)
    requires AllSpace(w1) && AllSpace(w4) && w2 != [] && AllSpace(w2)
    ensures ParseLine(w1 + d + w2 + Spaced(ts, ws) + w4) == Some(Entry(Join(ts), DigitsValue(d)))
  {
    var dts, ws2 := [d] + ts, [w2] + ws;
    assert dts[1..] == ts && ws2[1..] == ws;
    assert IsToken(d);
    assert AllTokens(dts) by {
      forall i | 0 <= i < |dts| ensures IsToken(dts[i]) {
        if i > 0 { assert dts[i] == ts[i - 1]; }
      }
    }
    assert AllGaps(ws2) by {
      forall i | 0 <= i < |ws2| ensures ws2[i] != [] && AllSpace(ws2[i]) {
        if i > 0 { assert ws2[i] == ws[i - 1]; }
      }
    }
    var core := Spaced(dts, ws2);
    assert core == d + w2 + Spaced(ts, ws);
    var line := w1 + d + w2 + Spaced(ts, ws) + w4;
    assert line == w1 + core + w4;
    SpacedEnds(dts, ws2);
    StripPadded(w1, core, w4);
    SpacedSplit(dts, ws2);
    ParseCountParts(line, d, ts);
  }

  /**
    Words without a leading count (or a single word, digits included), with
    any whitespace around and between them: the password is the whole
    stripped line, the inner whitespace kept as it was, with weight 1.
   */
  lemma ParseUncountedWords(w1: string, ts: seq<string>, ws: seq<string>, w4: string)
    requires |ts| == |ws| + 1 && AllTokens(ts) && AllGaps(ws)
    requires |ts| == 1 || !IsDigits(ts[0])
    requires AllSpace(w1) && AllSpace(w4)
    ensures ParseLine(w1 + Spaced(ts, ws) + w4) == Some(Entry(Spaced(ts, ws), 1))
  {
    var core := Spaced(ts, ws);
    SpacedEnds(ts, ws);
    StripPadded(w1, core, w4);
    SpacedSplit(ts, ws);
  }

  /**
    A count and two words, with any whitespace around and between them: the
    weight is the count and the password is the two words joined by a
    single space.
   */
  lemma ParseCountedLine(w1: string, d: string, w2: string, a: string, w3: string, b: string, w4: string)
    requires IsDigits(d) && IsToken(a) && IsToken(b)
    requires AllSpace(w1) && AllSpace(w4)
    requires w2 != [] && AllSpace(w2) && w3 != [] && AllSpace(w3)
    ensures ParseLine(w1 + d + w2 + a + w3 + b + w4) == Some(Entry(a + " " + b, DigitsValue(d)))
  {
    var ts, ws := [a, b], [w3];
    assert ts[1..] == [b] && ws[1..] == [];
    assert Spaced(ts, ws) == a + w3 + b;
    assert Join(ts) == a + " " + b;
    assert w1 + d + w2 + a + w3 + b + w4 == w1 + d + w2 + Spaced(ts, ws) + w4;
    ParseCountedWords(w1, d, w2, ts, ws, w4);
  }

  /**
    Two words with no leading count: the password is the whole stripped
    line, the whitespace between the words kept as it was.
   */
  lemma ParseUncountedLine(w1: string, a: string, w3: string, b: string, w4: string)
    requires IsToken(a) && IsToken(b) && !IsDigits(a)
    requires AllSpace(w1) && AllSpace(w4) && w3 != [] && AllSpace(w3)
    ensures ParseLine(w1 + a + w3 + b + w4) == Some(Entry(a + w3 + b, 1))
  {
    var ts, ws := [a, b], [w3];
    assert ts[1..] == [b] && ws[1..] == [];
    assert Spaced(ts, ws) == a + w3 + b;
    assert w1 + a + w3 + b + w4 == w1 + Spaced(ts, ws) + w4;
    ParseUncountedWords(w1, ts, ws, w4);
  }

  /** A line holding a single word (digits included) is that password with weight 1. */
  lemma ParseBarePassword(t: string)
    requires IsToken(t)
    ensures ParseLine(t) == Some(Entry(t, 1))
  {
    JoinIsTrimmed([t]);
    StripTrimmed(t);
    SplitJoin([t]);
  }
}
