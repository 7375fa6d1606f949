/**
  The few Python string operations the service relies on, over `seq<char>`:
  `str.split(sep)` with an explicit one-character separator, `str.strip()`,
  `sep.join(xs)`, ASCII `str.lower()` and the substring test `t in s`.
*/
module Text {

  /** Python's `str.isspace()` characters: the ASCII ones and the Unicode spaces. */
  predicate IsSpace(c: char) {
    ('\t' <= c <= '\r') || ('\U{1C}' <= c <= ' ') || c == '\U{85}' || c == '\U{A0}'
    || c == '\U{1680}' || ('\U{2000}' <= c <= '\U{200A}') || c == '\U{2028}' || c == '\U{2029}'
    || c == '\U{202F}' || c == '\U{205F}' || c == '\U{3000}'
  }

  /** `s.split(sep)`: the pieces between occurrences of `sep`; always at least one piece. */
  function Split(s: string, sep: char): (r: seq<string>)
    ensures |r| >= 1
    ensures forall i :: 0 <= i < |r| ==> sep !in r[i]
  {
    if s == [] then [[]]
    else if s[0] == sep then [[]] + Split(s[1..], sep)
    else
      var rest := Split(s[1..], sep);
      [[s[0]] + rest[0]] + rest[1..]
  }

  /** `glue.join(xs)`. */
  function Join(xs: seq<string>, glue: string): string {
    if xs == [] then []
    else if |xs| == 1 then xs[0]
    else xs[0] + glue + Join(xs[1..], glue)
  }

  function TrimStart(s: string): (r: string)
    ensures |r| <= |s| && r == s[|s| - |r|..]
    ensures r == [] || !IsSpace(r[0])
    ensures forall i :: 0 <= i < |s| - |r| ==> IsSpace(s[i])
  {
    if s != [] && IsSpace(s[0]) then TrimStart(s[1..]) else s
  }

  function TrimEnd(s: string): (r: string)
    ensures |r| <= |s| && r == s[..|r|]
    ensures r == [] || !IsSpace(r[|r| - 1])
    ensures forall i :: |r| <= i < |s| ==> IsSpace(s[i])
  {
    if s != [] && IsSpace(s[|s| - 1]) then TrimEnd(s[..|s| - 1]) else s
  }

  /** `s.strip()`: `s` without its leading and trailing whitespace. */
  function Strip(s: string): (r: string)
    ensures r == [] || (!IsSpace(r[0]) && !IsSpace(r[|r| - 1]))
    ensures forall c :: c in r ==> c in s
  {
    TrimEnd(TrimStart(s))
  }

  /** `r` is the window `s[i..j]` and everything of `s` around it is whitespace. */
  predicate SpaceAround(s: string, r: string, i: int, j: int) {
    0 <= i <= j <= |s| && r == s[i..j]
    && (forall k :: 0 <= k < i ==> IsSpace(s[k]))
    && (forall k :: j <= k < |s| ==> IsSpace(s[k]))
  }

  /** What `strip` removes is whitespace at either end: the result is a window of `s` with only whitespace around it. */
  lemma StripWindow(s: string)
    ensures exists i, j :: SpaceAround(s, Strip(s), i, j)
  {
    var t := TrimStart(s);
    var r := TrimEnd(t);
    var i := |s| - |t|;
    SliceOfSuffix(s, t, r);
    forall k | i + |r| <= k < |s|
      ensures IsSpace(s[k])
    {
      assert s[k] == t[k - i];
    }
    assert Strip(s) == r;
    assert SpaceAround(s, Strip(s), i, i + |r|);
  }

  lemma SliceOfSuffix(s: string, t: string, r: string)
    requires |t| <= |s| && t == s[|s| - |t|..]
    requires |r| <= |t| && r == t[..|r|]
    ensures r == s[|s| - |t|..|s| - |t| + |r|]
  {
  }

  /** Clean entries: what a parsed list may contain. */
  predicate IsStripped(s: string) {
    s == [] || (!IsSpace(s[0]) && !IsSpace(s[|s| - 1]))
  }

  /** Entries a parsed list may hold: non-empty, stripped and free of the separator. */
  predicate CleanEntries(xs: seq<string>, sep: char) {
    forall i :: 0 <= i < |xs| ==> xs[i] != [] && IsStripped(xs[i]) && sep !in xs[i]
  }

  /** `[x.strip() for x in pieces if x.strip()]`. */
  function StripNonEmpty(pieces: seq<string>): (r: seq<string>)
    ensures |r| <= |pieces|
  {
    if pieces == [] then []
    else
      var rest := StripNonEmpty(pieces[1..]);
      if Strip(pieces[0]) != [] then [Strip(pieces[0])] + rest else rest
  }

  /** `[x.strip() for x in text.split(sep) if x.strip()]`: the list parser of the profile forms. */
  function ParseList(text: string, sep: char): seq<string> {
    StripNonEmpty(Split(text, sep))
  }

  /** Every parsed entry is non-empty, has no surrounding whitespace and contains no separator. */
  lemma {:induction false} StripNonEmptyClean(pieces: seq<string>, sep: char)
    requires forall i :: 0 <= i < |pieces| ==> sep !in pieces[i]
    ensures CleanEntries(StripNonEmpty(pieces), sep)
  {
    if pieces != [] {
      var rest := StripNonEmpty(pieces[1..]);
      StripNonEmptyClean(pieces[1..], sep);
      var x := Strip(pieces[0]);
      if x != [] {
        assert sep !in pieces[0];
        assert sep !in x;
        CleanCons(x, rest, sep);
      }
    }
  }

  lemma CleanCons(x: string, rest: seq<string>, sep: char)
    requires x != [] && IsStripped(x) && sep !in x && CleanEntries(rest, sep)
    ensures CleanEntries([x] + rest, sep)
  {
    var xs := [x] + rest;
    forall i | 0 <= i < |xs|
      ensures xs[i] != [] && IsStripped(xs[i]) && sep !in xs[i]
    {
      if i > 0 {
        assert xs[i] == rest[i - 1];
      }
    }
  }

  lemma ParseListClean(text: string, sep: char)
    ensures CleanEntries(ParseList(text, sep), sep)
  {
    StripNonEmptyClean(Split(text, sep), sep);
  }

  lemma {:induction false} StripNonEmptyAppend(a: seq<string>, b: seq<string>)
    ensures StripNonEmpty(a + b) == StripNonEmpty(a) + StripNonEmpty(b)
  {
    if a != [] {
      assert (a + b)[1..] == a[1..] + b;
      StripNonEmptyAppend(a[1..], b);
    } else {
      assert a + b == b;
    }
  }

  /** Splitting a text at one separator splits its pieces there. */
  lemma {:induction false} SplitAppend(a: string, b: string, sep: char)
    requires sep !in a
    ensures Split(a + [sep] + b, sep) == [a] + Split(b, sep)
  {
    if a == [] {
      assert a + [sep] + b == [sep] + b;
      assert ([sep] + b)[1..] == b;
    } else {
      assert (a + [sep] + b)[1..] == a[1..] + [sep] + b;
      SplitAppend(a[1..], b, sep);
      assert [a[0]] + a[1..] == a;
    }
  }

  /** A text without the separator is a single piece. */
  lemma {:induction false} SplitNoSeparator(a: string, sep: char)
    requires sep !in a
    ensures Split(a, sep) == [a]
  {
    if a != [] {
      SplitNoSeparator(a[1..], sep);
      assert [a[0]] + a[1..] == a;
    }
  }

  /** List order is kept: the entries of `a,b` are those of `a` followed by those of `b`. */
  lemma ParseListAppend(a: string, b: string, sep: char)
    requires sep !in a
    ensures ParseList(a + [sep] + b, sep) == ParseList(a, sep) + ParseList(b, sep)
  {
    SplitAppend(a, b, sep);
    SplitNoSeparator(a, sep);
    StripNonEmptyAppend([a], Split(b, sep));
  }

  /** Stripping a stripped text changes nothing. */
  lemma StripStripped(s: string)
    requires IsStripped(s)
    ensures Strip(s) == s
  {
  }

  lemma {:induction false} StripLeadingSpace(pad: string, s: string)
    requires forall k :: 0 <= k < |pad| ==> IsSpace(pad[k])
    requires IsStripped(s)
    ensures Strip(pad + s) == s
  {
    if pad != [] {
      assert (pad + s)[1..] == pad[1..] + s;
      StripLeadingSpace(pad[1..], s);
    } else {
      assert pad + s == s;
    }
  }

  /** A join glue that parses back: the separator followed by whitespace only (", " or "\n"). */
  predicate Glue(glue: string, sep: char) {
    |glue| >= 1 && glue[0] == sep && forall k :: 1 <= k < |glue| ==> IsSpace(glue[k]) && glue[k] != sep
  }

  /**
    Round trip of the profile forms: the text field is pre-filled with `glue.join(xs)`;
    parsing that text gives `xs` back whenever its entries are clean.
  */
  lemma {:induction false} ParseJoinRoundTrip(xs: seq<string>, glue: string, sep: char)
    requires Glue(glue, sep) && CleanEntries(xs, sep)
    ensures ParseList(Join(xs, glue), sep) == xs
  {
    if |xs| == 1 {
      SplitNoSeparator(xs[0], sep);
      StripStripped(xs[0]);
    } else if |xs| > 1 {
      var ys := xs[1..];
      assert CleanEntries(ys, sep) by {
        forall i | 0 <= i < |ys|
          ensures ys[i] == xs[i + 1]
        {
        }
      }
      ParseJoinRoundTrip(ys, glue, sep);
      ParseJoinStep(xs, glue, sep);
    }
  }

  lemma ParseJoinStep(xs: seq<string>, glue: string, sep: char)
    requires |xs| > 1 && Glue(glue, sep)
    requires xs[0] != [] && IsStripped(xs[0]) && sep !in xs[0]
    requires ParseList(Join(xs[1..], glue), sep) == xs[1..]
    ensures ParseList(Join(xs, glue), sep) == xs
  {
    var rest := Join(xs[1..], glue);
    assert Join(xs, glue) == xs[0] + glue + rest;
    ParseConsJoined(xs, rest, glue, sep);
  }

  /** One step of the round trip: a clean entry, the glue, then a text that parses to the other entries. */
  lemma ParseConsJoined(xs: seq<string>, rest: string, glue: string, sep: char)
    requires |xs| >= 1 && Glue(glue, sep)
    requires xs[0] != [] && IsStripped(xs[0]) && sep !in xs[0]
    requires ParseList(rest, sep) == xs[1..]
    ensures ParseList(xs[0] + glue + rest, sep) == xs
  {
    var pad := glue[1..];
    GluePad(glue, sep);
    ConcatGlue(xs[0], glue, rest);
    ParseListAppend(xs[0], pad + rest, sep);
    ParseListSingle(xs[0], sep);
    ParseListAfterPad(pad, rest, sep);
    assert ParseList(xs[0] + glue + rest, sep) == [xs[0]] + xs[1..];
    assert xs == [xs[0]] + xs[1..];
  }

  lemma GluePad(glue: string, sep: char)
    requires Glue(glue, sep)
    ensures forall k :: 0 <= k < |glue[1..]| ==> IsSpace(glue[1..][k])
    ensures sep !in glue[1..]
  {
    var pad := glue[1..];
    forall k | 0 <= k < |pad|
      ensures IsSpace(pad[k]) && pad[k] != sep
    {
      assert pad[k] == glue[k + 1];
    }
  }

  lemma ConcatGlue(x: string, glue: string, rest: string)
    requires |glue| >= 1
    ensures x + glue + rest == x + [glue[0]] + (glue[1..] + rest)
  {
    assert glue == [glue[0]] + glue[1..];
  }

  /** A clean entry parses to itself. */
  lemma ParseListSingle(x: string, sep: char)
    requires x != [] && IsStripped(x) && sep !in x
    ensures ParseList(x, sep) == [x]
  {
    SplitNoSeparator(x, sep);
    StripStripped(x);
  }

  /** Leading whitespace does not change what `strip` returns. */
  lemma {:induction false} StripAfterPad(pad: string, x: string)
    requires forall k :: 0 <= k < |pad| ==> IsSpace(pad[k])
    ensures Strip(pad + x) == Strip(x)
  {
    if pad != [] {
      assert (pad + x)[1..] == pad[1..] + x;
      StripAfterPad(pad[1..], x);
    } else {
      assert pad + x == x;
    }
  }

  /** Whitespace before a list text does not change what it parses to. */
  lemma {:induction false} ParseListAfterPad(pad: string, rest: string, sep: char)
    requires forall k :: 0 <= k < |pad| ==> IsSpace(pad[k])
    requires sep !in pad
    ensures ParseList(pad + rest, sep) == ParseList(rest, sep)
  {
    var pieces := Split(rest, sep);
    var tail := pieces[1..];
    SplitPrefix(pad, rest, sep);
    assert Split(pad + rest, sep) == [pad + pieces[0]] + tail;
    assert pieces == [pieces[0]] + tail;
    StripAfterPad(pad, pieces[0]);
    assert StripNonEmpty([pad + pieces[0]]) == StripNonEmpty([pieces[0]]);
    StripNonEmptyAppend([pieces[0]], tail);
    StripNonEmptyAppend([pad + pieces[0]], tail);
  }

  /** A separator-free prefix joins the first piece. */
  lemma {:induction false} SplitPrefix(pad: string, rest: string, sep: char)
    requires sep !in pad
    ensures var r := Split(rest, sep); Split(pad + rest, sep) == [pad + r[0]] + r[1..]
  {
    if pad != [] {
      assert (pad + rest)[1..] == pad[1..] + rest;
      SplitPrefix(pad[1..], rest, sep);
      assert [pad[0]] + (pad[1..] + Split(rest, sep)[0]) == pad + Split(rest, sep)[0];
    } else {
      var r := Split(rest, sep);
      assert pad + rest == rest;
      assert pad + r[0] == r[0];
      assert r == [r[0]] + r[1..];
    }
  }

  /** ASCII lower case; other characters are kept. */
  function LowerChar(c: char): char {
    if 'A' <= c <= 'Z' then (c as int + 32) as char else c
  }

  /** `s.lower()`, restricted to ASCII letters. */
  function Lower(s: string): (r: string)
    ensures |r| == |s|
    ensures forall i :: 0 <= i < |s| ==> r[i] == LowerChar(s[i])
  {
    if s == [] then [] else [LowerChar(s[0])] + Lower(s[1..])
  }

  /** Python's `t in s` on strings: `t` occurs in `s` as a contiguous substring. */
  predicate Contains(s: string, t: string) {
    t <= s || (s != [] && Contains(s[1..], t))
  }
}
