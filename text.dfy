/**
  * The string primitives the scanner relies on: Python's `str.isdigit`,
  * `str.isspace`, `str.strip`, `str.split()`, `str.splitlines` and
  * `max(xs, key=len)`, restated on `seq<char>`.
  */
module Text {

  /** An ASCII decimal digit. Python's `isdigit` also accepts other Unicode
      digits; the model assumes the texts it filters hold none (the OCR
      whitelist is 0-9, but a QR or PDF417 payload may carry any text). */
  predicate IsDigit(c: char) {
    '0' <= c <= '9'
  }

  predicate AllDigits(s: string) {
    forall i :: 0 <= i < |s| ==> IsDigit(s[i])
  }

  /** The characters Python's `str.isspace` accepts. */
  predicate IsSpace(c: char) {
    c == ' ' || '\t' <= c <= '\r' || '\U{1C}' <= c <= '\U{1F}' ||
    c == '\U{85}' || c == '\U{A0}' || c == '\U{1680}' ||
    '\U{2000}' <= c <= '\U{200A}' || c == '\U{2028}' || c == '\U{2029}' ||
    c == '\U{202F}' || c == '\U{205F}' || c == '\U{3000}'
  }

  /** The characters at which Python's `str.splitlines` ends a line. */
  predicate IsLineBreak(c: char) {
    '\n' <= c <= '\r' || '\U{1C}' <= c <= '\U{1E}' ||
    c == '\U{85}' || c == '\U{2028}' || c == '\U{2029}'
  }

  /** `"".join(ch for ch in s if ch.isdigit())`: the digits of `s`, in order. */
  function DigitsOnly(s: string): (r: string)
    ensures |r| <= |s|
    ensures AllDigits(r)
    ensures AllDigits(s) ==> r == s
    ensures forall c :: c in r ==> c in s
  {
    if s == [] then []
    else (if IsDigit(s[0]) then [s[0]] else []) + DigitsOnly(s[1..])
  }

  /** Digit extraction distributes over concatenation. */
  lemma {:induction false} DigitsOnlyAppend(a: string, b: string)
    ensures DigitsOnly(a + b) == DigitsOnly(a) + DigitsOnly(b)
  {
    if a != [] {
      assert (a + b)[1..] == a[1..] + b;
      DigitsOnlyAppend(a[1..], b);
    } else {
      assert a + b == b;
    }
  }

  lemma DigitIsNotSpace(c: char)
    requires IsDigit(c)
    ensures !IsSpace(c)
  {
  }

  /** A digit string has nothing for `strip` to remove at either end. */
  lemma DigitsAreStripped(s: string)
    requires AllDigits(s)
    ensures Trimmed(s)
  {
    if s != [] {
      DigitIsNotSpace(s[0]);
      DigitIsNotSpace(s[|s| - 1]);
    }
  }

  /** `s.lstrip()`: drops the leading whitespace. */
  function StripLeft(s: string): (r: string)
    ensures |r| <= |s| && r == s[|s| - |r|..]
    ensures forall k :: 0 <= k < |s| - |r| ==> IsSpace(s[k])
    ensures r == [] || !IsSpace(r[0])
  {
    if s != [] && IsSpace(s[0]) then StripLeft(s[1..]) else s
  }

  /** `s.rstrip()`: drops the trailing whitespace. */
  function StripRight(s: string): (r: string)
    ensures |r| <= |s| && r == s[..|r|]
    ensures forall k :: |r| <= k < |s| ==> IsSpace(s[k])
    ensures r == [] || !IsSpace(r[|r| - 1])
  {
    if s != [] && IsSpace(s[|s| - 1]) then StripRight(s[..|s| - 1]) else s
  }

  /** Neither starts nor ends with whitespace. */
  predicate Trimmed(s: string) {
    s == [] || (!IsSpace(s[0]) && !IsSpace(s[|s| - 1]))
  }

  /** `r` is the slice of `s` starting at `i`, with only whitespace before
      and after it in `s`. */
  predicate PaddedSlice(s: string, i: int, r: string) {
    && 0 <= i <= |s| - |r|
    && r == s[i..i + |r|]
    && (forall k :: 0 <= k < i ==> IsSpace(s[k]))
    && (forall k :: i + |r| <= k < |s| ==> IsSpace(s[k]))
  }

  /** `s.strip()`: a slice of `s` that neither starts nor ends with whitespace,
      with only whitespace before and after it in `s`. */
  function Strip(s: string): (r: string)
    ensures |r| <= |s|
    ensures Trimmed(r)
    ensures Trimmed(s) ==> r == s
    ensures exists i :: PaddedSlice(s, i, r)
  {
    var l := StripLeft(s);
    var r := StripRight(l);
    PaddedSliceOfStrips(s, l, r);
    r
  }

  /** Dropping leading whitespace, then trailing whitespace, leaves a slice
      with only whitespace around it. */
  lemma PaddedSliceOfStrips(s: string, l: string, r: string)
    requires |l| <= |s| && l == s[|s| - |l|..]
    requires forall k :: 0 <= k < |s| - |l| ==> IsSpace(s[k])
    requires |r| <= |l| && r == l[..|r|]
    requires forall k :: |r| <= k < |l| ==> IsSpace(l[k])
    ensures PaddedSlice(s, |s| - |l|, r)
  {
    var i := |s| - |l|;
    assert forall k :: i + |r| <= k < |s| ==> s[k] == l[k - i];
  }

  /** Length of the leading run of non-whitespace characters. */
  function WordLength(s: string): (k: nat)
    ensures k <= |s|
    ensures forall i :: 0 <= i < k ==> !IsSpace(s[i])
    ensures k == |s| || IsSpace(s[k])
  {
    if s == [] || IsSpace(s[0]) then 0 else 1 + WordLength(s[1..])
  }

  predicate IsToken(t: string) {
    t != [] && forall i :: 0 <= i < |t| ==> !IsSpace(t[i])
  }

  /** `s.split()`: the maximal runs of non-whitespace characters, in order. */
  function Tokens(s: string): (r: seq<string>)
    ensures forall i :: 0 <= i < |r| ==> IsToken(r[i])
    decreases |s|
  {
    if s == [] then []
    else if IsSpace(s[0]) then Tokens(s[1..])
    else
      var k := WordLength(s);
      [s[..k]] + Tokens(s[k..])
  }

  /** A whitespace character ends the leading word. */
  lemma {:induction false} WordLengthBeforeSpace(a: string, c: char, b: string)
    requires IsSpace(c)
    ensures WordLength(a + [c] + b) == WordLength(a)
  {
    if a == [] {
      assert (a + [c] + b)[0] == c;
    } else if !IsSpace(a[0]) {
      assert (a + [c] + b)[1..] == a[1..] + [c] + b;
      WordLengthBeforeSpace(a[1..], c, b);
    }
  }

  /** Splitting at a whitespace character splits the tokens: the text before
      it and the text after it are tokenised separately. */
  lemma {:induction false} TokensAtSpace(a: string, c: char, b: string)
    requires IsSpace(c)
    ensures Tokens(a + [c] + b) == Tokens(a) + Tokens(b)
    decreases |a|
  {
    var s := a + [c] + b;
    if a == [] {
      assert s[1..] == b;
    } else if IsSpace(a[0]) {
      assert s[1..] == a[1..] + [c] + b;
      TokensAtSpace(a[1..], c, b);
    } else {
      var k := WordLength(a);
      WordLengthBeforeSpace(a, c, b);
      assert s[..k] == a[..k];
      assert s[k..] == a[k..] + [c] + b;
      TokensAtSpace(a[k..], c, b);
    }
  }

  /** Whitespace alone has no tokens. */
  lemma {:induction false} TokensOfSpace(s: string)
    requires forall i :: 0 <= i < |s| ==> IsSpace(s[i])
    ensures Tokens(s) == []
    decreases |s|
  {
    if s != [] {
      TokensOfSpace(s[1..]);
    }
  }

  /** A non-empty string without whitespace is a single token. */
  lemma {:induction false} TokensOfToken(t: string)
    requires IsToken(t)
    ensures Tokens(t) == [t]
  {
    assert !IsSpace(t[0]);
    assert WordLength(t) == |t|;
    assert t[..|t|] == t && t[|t|..] == [];
    assert Tokens(t[|t|..]) == [];
  }

  /** Length of the leading run of characters that are not line breaks. */
  function LineLength(s: string): (k: nat)
    ensures k <= |s|
    ensures forall i :: 0 <= i < k ==> !IsLineBreak(s[i])
    ensures k == |s| || IsLineBreak(s[k])
  {
    if s == [] || IsLineBreak(s[0]) then 0 else 1 + LineLength(s[1..])
  }

  /** `s.splitlines()`, except that "\r\n" ends two lines (the second empty)
      instead of one; every caller drops empty lines, so this does not matter. */
  function SplitLines(s: string): (r: seq<string>)
    ensures s == [] ==> r == []
    ensures forall i, j :: 0 <= i < |r| && 0 <= j < |r[i]| ==> !IsLineBreak(r[i][j])
    decreases |s|
  {
    if s == [] then []
    else
      var k := LineLength(s);
      if k == |s| then [s] else [s[..k]] + SplitLines(s[k + 1..])
  }

  /** A line break ends the leading line. */
  lemma {:induction false} LineLengthBeforeBreak(a: string, c: char, b: string)
    requires forall i :: 0 <= i < |a| ==> !IsLineBreak(a[i])
    requires IsLineBreak(c)
    ensures LineLength(a + [c] + b) == |a|
  {
    if a == [] {
      assert (a + [c] + b)[0] == c;
    } else {
      assert (a + [c] + b)[1..] == a[1..] + [c] + b;
      LineLengthBeforeBreak(a[1..], c, b);
    }
  }

  /** A line followed by a break is the first line, and the lines after the
      break follow it; a text without breaks is one line. */
  lemma SplitLinesAtBreak(a: string, c: char, b: string)
    requires forall i :: 0 <= i < |a| ==> !IsLineBreak(a[i])
    requires IsLineBreak(c)
    ensures SplitLines(a + [c] + b) == [a] + SplitLines(b)
    ensures a != [] ==> SplitLines(a) == [a]
  {
    var s := a + [c] + b;
    LineLengthBeforeBreak(a, c, b);
    assert s[..|a|] == a;
    assert s[|a| + 1..] == b;
  }

  /** The index `max(xs, key=len)` picks: the first element of greatest length
      (Python's `max` only replaces its candidate on a strictly longer one). */
  function LongestIndex(xs: seq<string>): (k: nat)
    requires xs != []
    ensures k < |xs|
    ensures forall j :: 0 <= j < |xs| ==> |xs[j]| <= |xs[k]|
    ensures forall j :: 0 <= j < k ==> |xs[j]| < |xs[k]|
  {
    if |xs| == 1 then 0
    else
      var k := LongestIndex(xs[..|xs| - 1]);
      if |xs[|xs| - 1]| > |xs[k]| then |xs| - 1 else k
  }

  /** When the head is not the first longest element, the first longest
      element is the tail's, and the head is shorter. */
  lemma LongestOfCons(x: string, rest: seq<string>)
    requires LongestIndex([x] + rest) > 0
    ensures rest != []
    ensures rest[LongestIndex(rest)] == ([x] + rest)[LongestIndex([x] + rest)]
    ensures |x| < |([x] + rest)[LongestIndex([x] + rest)]|
  {
    var ys := [x] + rest;
    var k := LongestIndex(ys);
    var m := LongestIndex(rest);
    assert rest[k - 1] == ys[k] && rest[m] == ys[m + 1];
    assert ys[0] == x;
  }
}
