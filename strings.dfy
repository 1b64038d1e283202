/** String helpers with the semantics of the Python string operations the
    source uses: `in` on strings, `str.replace`, `str.split(sep)`,
    `str.split()` (whitespace) and slicing. */
module Strings {
  import opened Wrappers

  /** `sub` occurs in `s` starting at index `i`. */
  predicate OccursAt(s: string, sub: string, i: int) {
    0 <= i && i + |sub| <= |s| && s[i..i + |sub|] == sub
  }

  /** `sub in s` for Python strings. */
  predicate Contains(s: string, sub: string) {
    exists i | 0 <= i <= |s| :: OccursAt(s, sub, i)
  }

  lemma OccursShift(s: string, sub: string, i: int)
    requires |s| > 0 && 0 <= i
    ensures OccursAt(s[1..], sub, i) <==> OccursAt(s, sub, i + 1)
  {
    if 0 <= i && i + 1 + |sub| <= |s| {
      assert s[1..][i..i + |sub|] == s[i + 1..i + 1 + |sub|];
    }
  }

  /** `sub in s` with a nonempty `s` looks either at index 0 or in the tail. */
  lemma ContainsCons(s: string, sub: string)
    requires |s| > 0
    ensures Contains(s, sub) <==> OccursAt(s, sub, 0) || Contains(s[1..], sub)
  {
    if Contains(s, sub) && !OccursAt(s, sub, 0) {
      var i :| 0 <= i <= |s| && OccursAt(s, sub, i);
      assert i != 0;
      OccursShift(s, sub, i - 1);
    }
    if Contains(s[1..], sub) {
      var i :| 0 <= i <= |s[1..]| && OccursAt(s[1..], sub, i);
      OccursShift(s, sub, i);
    }
  }

  /** A left-to-right search that decides `Contains`; it is how the
      compiled model evaluates `sub in s`. */
  function Find(s: string, sub: string): (r: bool)
    ensures r <==> Contains(s, sub)
    decreases |s|
  {
    if |s| < |sub| then
      assert forall i :: !OccursAt(s, sub, i);
      false
    else if s[..|sub|] == sub then
      assert OccursAt(s, sub, 0);
      true
    else
      ContainsCons(s, sub);
      Find(s[1..], sub)
  }

  /** `s.replace(pat, rep)`: every non-overlapping occurrence of a
      non-empty `pat`, scanned from the left, is replaced by `rep`. */
  function Replace(s: string, pat: string, rep: string): string
    requires pat != []
    decreases |s|
  {
    if |s| < |pat| then s
    else if s[..|pat|] == pat then rep + Replace(s[|pat|..], pat, rep)
    else [s[0]] + Replace(s[1..], pat, rep)
  }

  /** A text without the pattern is returned unchanged. */
  lemma {:induction false} ReplaceNoOccurrence(s: string, pat: string, rep: string)
    requires pat != [] && !Contains(s, pat)
    ensures Replace(s, pat, rep) == s
    decreases |s|
  {
    if |s| >= |pat| {
      ContainsCons(s, pat);
      assert s[..|pat|] != pat by {
        assert !OccursAt(s, pat, 0);
      }
      ReplaceNoOccurrence(s[1..], pat, rep);
      assert [s[0]] + s[1..] == s;
    }
  }

  /** The left-most occurrence of `pat` is replaced first, and the scan
      goes on after it, so occurrences never overlap. */
  lemma ReplaceLeftmost(s: string, pat: string, rep: string, i: nat)
    requires pat != [] && OccursAt(s, pat, i)
    requires forall j :: 0 <= j < i ==> !OccursAt(s, pat, j)
    ensures Replace(s, pat, rep) == s[..i] + rep + Replace(s[i + |pat|..], pat, rep)
  {
    NoOccurrenceBeforeOfAll(s, pat, i);
    ReplaceAtFirstOccurrence(s, pat, rep, i);
  }

  lemma ReplaceAtFirstOccurrence(s: string, pat: string, rep: string, i: nat)
    requires pat != [] && OccursAt(s, pat, i) && NoOccurrenceBefore(s, pat, i)
    ensures Replace(s, pat, rep) == s[..i] + rep + Replace(s[i + |pat|..], pat, rep)
  {
    ReplaceKeepsPrefix(s, pat, rep, i);
    var tail := s[i..];
    assert tail[..|pat|] == s[i..i + |pat|];
    ReplaceFront(tail, pat, rep);
    var after := tail[|pat|..];
    assert after == s[i + |pat|..];
    PrefixChain(Replace(s, pat, rep), s[..i], Replace(tail, pat, rep), rep, Replace(after, pat, rep));
  }

  /** The sequence algebra of `ReplaceAtFirstOccurrence`. */
  lemma PrefixChain(x: string, prefix: string, y: string, rep: string, z: string)
    requires x == prefix + y && y == rep + z
    ensures x == prefix + rep + z
  {
  }

  /** No occurrence of `pat` starts before index `i`, stated by walking
      down the string one character at a time. */
  predicate NoOccurrenceBefore(s: string, pat: string, i: nat)
    decreases i
  {
    i == 0 || (|s| > 0 && !OccursAt(s, pat, 0) && NoOccurrenceBefore(s[1..], pat, i - 1))
  }

  lemma {:induction false} NoOccurrenceBeforeOfAll(s: string, pat: string, i: nat)
    requires i <= |s|
    requires forall j :: 0 <= j < i ==> !OccursAt(s, pat, j)
    ensures NoOccurrenceBefore(s, pat, i)
  {
    if i > 0 {
      assert !OccursAt(s, pat, 0);
      NoEarlierOccurrence(s, pat, i);
      NoOccurrenceBeforeOfAll(s[1..], pat, i - 1);
    }
  }

  /** Characters before the first occurrence are copied unchanged. */
  lemma {:induction false} ReplaceKeepsPrefix(s: string, pat: string, rep: string, k: nat)
    requires pat != [] && k + |pat| <= |s| && NoOccurrenceBefore(s, pat, k)
    ensures Replace(s, pat, rep) == s[..k] + Replace(s[k..], pat, rep)
  {
    if k == 0 {
      assert s[..0] + s[0..] == s;
    } else {
      ReplaceSkip(s, pat, rep);
      var t := s[1..];
      ReplaceKeepsPrefix(t, pat, rep, k - 1);
      var kept, rest := t[..k - 1], t[k - 1..];
      assert rest == s[k..];
      assert [s[0]] + kept == s[..k];
      ConsChain(Replace(s, pat, rep), Replace(t, pat, rep), s[0], kept, Replace(rest, pat, rep), s[..k]);
    }
  }

  /** The sequence algebra of one step of `ReplaceKeepsPrefix`. */
  lemma ConsChain(x: string, y: string, c: char, kept: string, z: string, prefix: string)
    requires x == [c] + y && y == kept + z && [c] + kept == prefix
    ensures x == prefix + z
  {
  }

  lemma NoEarlierOccurrence(s: string, pat: string, i: nat)
    requires 0 < i <= |s|
    requires forall j :: 0 <= j < i ==> !OccursAt(s, pat, j)
    ensures forall j :: 0 <= j < i - 1 ==> !OccursAt(s[1..], pat, j)
  {
    forall j | 0 <= j < i - 1 ensures !OccursAt(s[1..], pat, j) {
      OccursShift(s, pat, j);
    }
  }

  /** An occurrence at the front is replaced and the scan skips past it. */
  lemma ReplaceFront(s: string, pat: string, rep: string)
    requires pat != [] && OccursAt(s, pat, 0)
    ensures Replace(s, pat, rep) == rep + Replace(s[|pat|..], pat, rep)
  {
    assert s[..|pat|] == pat;
  }

  /** Without an occurrence at the front, the first character is kept. */
  lemma ReplaceSkip(s: string, pat: string, rep: string)
    requires pat != [] && |pat| <= |s| && !OccursAt(s, pat, 0)
    ensures Replace(s, pat, rep) == [s[0]] + Replace(s[1..], pat, rep)
  {
    assert s[..|pat|] != pat;
  }

  /** Every character except `c`, in order (`s.replace(c, "")` for one
      character `c`). */
  function RemoveChar(s: string, c: char): (r: string)
    ensures |r| <= |s|
    ensures forall i :: 0 <= i < |r| ==> r[i] != c
    ensures (forall i :: 0 <= i < |s| ==> s[i] != c) ==> r == s
  {
    if s == [] then []
    else if s[0] == c then RemoveChar(s[1..], c)
    else [s[0]] + RemoveChar(s[1..], c)
  }

  /** Python's `s[:n]` for `n >= 0`. */
  function Take(s: string, n: nat): (r: string)
    ensures |r| == if |s| < n then |s| else n
    ensures r <= s
  {
    if |s| <= n then s else s[..n]
  }

  /** `sep.join(pieces)`. */
  function Join(pieces: seq<string>, sep: char): string
    requires pieces != []
  {
    if |pieces| == 1 then pieces[0] else pieces[0] + [sep] + Join(pieces[1..], sep)
  }

  /** Joining pieces whose first one starts with `c` puts `c` in front. */
  lemma JoinConsChar(c: char, p: string, ps: seq<string>, sep: char)
    ensures Join([[c] + p] + ps, sep) == [c] + Join([p] + ps, sep)
  {
    if ps != [] {
      assert ([[c] + p] + ps)[1..] == ps == ([p] + ps)[1..];
    }
  }

  /** `s.split(sep)` for a single-character separator: the pieces between
      the separators, so a string with k separators has k + 1 pieces, and
      joining them with `sep` gives `s` back. */
  function Split(s: string, sep: char): (r: seq<string>)
    ensures |r| >= 1
    ensures forall i :: 0 <= i < |r| ==> sep !in r[i]
    ensures Join(r, sep) == s
    decreases |s|
  {
    if s == [] then [""]
    else
      var rest := Split(s[1..], sep);
      if s[0] == sep then
        assert ([""] + rest)[1..] == rest;
        [""] + rest
      else
        assert [rest[0]] + rest[1..] == rest;
        JoinConsChar(s[0], rest[0], rest[1..], sep);
        [[s[0]] + rest[0]] + rest[1..]
  }

  /** Splitting undoes joining: separator-free pieces are exactly what
      `Split` returns for their join, so `Split` is the only decomposition
      with its two properties. */
  lemma {:induction false} SplitJoin(pieces: seq<string>, sep: char)
    requires pieces != []
    requires forall i :: 0 <= i < |pieces| ==> sep !in pieces[i]
    ensures Split(Join(pieces, sep), sep) == pieces
    decreases |Join(pieces, sep)|
  {
    var first := pieces[0];
    if first == [] {
      if |pieces| > 1 {
        var rest := pieces[1..];
        assert Join(pieces, sep) == [sep] + Join(rest, sep);
        assert ([sep] + Join(rest, sep))[1..] == Join(rest, sep);
        SplitJoin(rest, sep);
        assert [""] + rest == pieces;
      }
    } else {
      var c := first[0];
      var tail := [first[1..]] + pieces[1..];
      assert [c] + first[1..] == first;
      assert [[c] + first[1..]] + pieces[1..] == pieces;
      JoinConsChar(c, first[1..], pieces[1..], sep);
      assert c != sep by { assert first[0] in first; }
      forall i | 0 <= i < |tail| ensures sep !in tail[i] {
        if i == 0 {
          assert forall x :: x in first[1..] ==> x in first;
        } else {
          assert tail[i] == pieces[i];
        }
      }
      var j := Join(pieces, sep);
      assert j[1..] == Join(tail, sep);
      SplitJoin(tail, sep);
    }
  }

  /** Python's `str.isspace()` for one character, the whitespace test of
      `strip()`, `split()` and `int()`. */
  predicate IsSpace(c: char) {
    || ('\t' <= c <= '\r') || ('\U{1C}' <= c <= ' ')
    || c == '\U{85}' || c == '\U{A0}' || c == '\U{1680}'
    || ('\U{2000}' <= c <= '\U{200A}')
    || c == '\U{2028}' || c == '\U{2029}' || c == '\U{202F}' || c == '\U{205F}' || c == '\U{3000}'
  }

  /** `s.lstrip()`: drops the leading whitespace. */
  function TrimLeft(s: string): (r: string)
    ensures r == [] || !IsSpace(r[0])
    ensures |r| <= |s| && r == s[|s| - |r|..]
    ensures forall i :: 0 <= i < |s| - |r| ==> IsSpace(s[i])
  {
    if s != [] && IsSpace(s[0]) then TrimLeft(s[1..]) else s
  }

  /** `s.rstrip()`: drops the trailing whitespace. */
  function TrimRight(s: string): (r: string)
    ensures r == [] || !IsSpace(r[|r| - 1])
    ensures r <= s
    ensures forall i :: |r| <= i < |s| ==> IsSpace(s[i])
  {
    if s != [] && IsSpace(s[|s| - 1]) then TrimRight(s[..|s| - 1]) else s
  }

  lemma TrimLeftNoSpace(s: string)
    requires s != [] && !IsSpace(s[0])
    ensures TrimLeft(s) == s
  {
  }

  lemma TrimRightNoSpace(s: string)
    requires s != [] && !IsSpace(s[|s| - 1])
    ensures TrimRight(s) == s
  {
  }

  /** Everything in `s` outside the index range `[lo, hi)` is whitespace. */
  predicate SpaceOutside(s: string, lo: int, hi: int) {
    forall k :: 0 <= k < |s| && !(lo <= k < hi) ==> IsSpace(s[k])
  }

  /** `r` is the slice of `s` starting at `lo`, with only whitespace
      around it. */
  predicate KeptSlice(s: string, r: string, lo: int) {
    0 <= lo <= |s| - |r| && r == s[lo..lo + |r|] && SpaceOutside(s, lo, lo + |r|)
  }

  /** `s.strip()`: the slice of `s` left when the whitespace at both ends
      is dropped. */
  function Strip(s: string): (r: string)
    ensures r == [] || (!IsSpace(r[0]) && !IsSpace(r[|r| - 1]))
  {
    TrimRight(TrimLeft(s))
  }

  /** `s.strip()` is the slice of `s` after its leading whitespace, with
      only whitespace around it. */
  lemma StripKeepsSlice(s: string)
    ensures KeptSlice(s, Strip(s), |s| - |TrimLeft(s)|)
  {
    var t := TrimLeft(s);
    SliceOfTail(s, t, TrimRight(t), |s| - |t|);
  }

  /** A prefix `r` of the tail `t == s[lo..]` is a kept slice when the
      characters before `lo` and those of `t` after `r` are whitespace. */
  lemma SliceOfTail(s: string, t: string, r: string, lo: int)
    requires 0 <= lo <= |s| && t == s[lo..] && r <= t
    requires forall i :: 0 <= i < lo ==> IsSpace(s[i])
    requires forall i :: |r| <= i < |t| ==> IsSpace(t[i])
    ensures KeptSlice(s, r, lo)
  {
    assert r == s[lo..lo + |r|];
    forall k | 0 <= k < |s| && !(lo <= k < lo + |r|) ensures IsSpace(s[k]) {
      if k >= lo {
        assert s[k] == t[k - lo];
      }
    }
  }

  /** The longest prefix of `s` holding no whitespace. */
  function PrefixWord(s: string): (r: string)
    ensures r <= s
    ensures forall i :: 0 <= i < |r| ==> !IsSpace(r[i])
    ensures |r| < |s| ==> IsSpace(s[|r|])
  {
    if s == [] || IsSpace(s[0]) then [] else [s[0]] + PrefixWord(s[1..])
  }

  // ---------------------------------------------------------------------
  // Python's `int(text)` for decimal text

  predicate IsDigit(c: char) {
    '0' <= c <= '9'
  }

  predicate AllDigits(s: string) {
    forall i :: 0 <= i < |s| ==> IsDigit(s[i])
  }

  function DigitsValue(s: string): (n: nat)
    requires AllDigits(s)
  {
    if s == [] then 0 else 10 * DigitsValue(s[..|s| - 1]) + (s[|s| - 1] - '0') as int
  }

  /** `int(text)`: surrounding whitespace, an optional sign, then one or
      more decimal digits; anything else is a `ValueError` (`None`). */
  function ParseInt(text: string): (r: Option<int>) {
    ParseSigned(Strip(text))
  }

  /** An optional sign followed by one or more decimal digits. */
  function ParseSigned(s: string): Option<int> {
    if s == [] then None
    else
      var digits := if s[0] == '-' || s[0] == '+' then s[1..] else s;
      if digits == [] || !AllDigits(digits) then None
      else
        var v: int := DigitsValue(digits);
        Some(if s[0] == '-' then -v else v)
  }

  /** The decimal spelling of a natural number, without leading zeros. */
  function DecimalString(n: nat): (s: string)
    ensures s != [] && AllDigits(s)
  {
    if n < 10 then [('0' as int + n) as char]
    else DecimalString(n / 10) + [('0' as int + n % 10) as char]
  }

  lemma {:induction false} DecimalStringValue(n: nat)
    ensures DigitsValue(DecimalString(n)) == n
  {
    if n >= 10 {
      DecimalStringValue(n / 10);
      var s := DecimalString(n);
      assert s[..|s| - 1] == DecimalString(n / 10);
    }
  }

  lemma NoSpaceInDigits(s: string)
    requires s != [] && AllDigits(s)
    ensures Strip(s) == s
  {
    assert IsDigit(s[0]) && IsDigit(s[|s| - 1]);
    TrimLeftNoSpace(s);
    TrimRightNoSpace(s);
  }

  lemma ParseUnsignedDigits(d: string)
    requires d != [] && AllDigits(d)
    ensures ParseInt(d) == Some(DigitsValue(d))
  {
    NoSpaceInDigits(d);
    assert d[0] != '-' && d[0] != '+' by {
      assert IsDigit(d[0]);
    }
    assert ParseSigned(d) == Some(DigitsValue(d));
  }

  lemma TrimLeftSignedDigits(d: string)
    requires d != [] && AllDigits(d)
    ensures TrimLeft("-" + d) == "-" + d
  {
    TrimLeftNoSpace("-" + d);
  }

  lemma TrimRightSignedDigits(d: string)
    requires d != [] && AllDigits(d)
    ensures TrimRight("-" + d) == "-" + d
  {
    var t := "-" + d;
    assert t[|t| - 1] == d[|d| - 1];
    assert IsDigit(d[|d| - 1]);
    TrimRightNoSpace(t);
  }

  lemma StripSignedDigits(d: string)
    requires d != [] && AllDigits(d)
    ensures Strip("-" + d) == "-" + d
  {
    TrimLeftSignedDigits(d);
    TrimRightSignedDigits(d);
  }

  lemma ParseSignedNegative(d: string, n: nat)
    requires d != [] && AllDigits(d) && DigitsValue(d) == n
    ensures ParseSigned("-" + d) == Some(-(n as int))
  {
    assert ("-" + d)[1..] == d;
  }

  /** `int()` of a minus sign and a non-empty run of ASCII digits is the
      negated decimal value. */
  lemma ParseNegativeDigits(d: string, n: nat)
    requires d != [] && AllDigits(d) && DigitsValue(d) == n
    ensures ParseInt("-" + d) == Some(-(n as int))
  {
    StripSignedDigits(d);
    ParseSignedNegative(d, n);
  }

  /** `int(str(n))` round-trips, with or without a minus sign. */
  lemma ParseIntRoundTrip(n: nat)
    ensures ParseInt(DecimalString(n)) == Some(n)
    ensures ParseInt("-" + DecimalString(n)) == Some(-(n as int))
  {
    DecimalStringValue(n);
    ParseUnsignedDigits(DecimalString(n));
    ParseNegativeDigits(DecimalString(n), n);
  }
}
