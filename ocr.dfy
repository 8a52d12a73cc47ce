/**
  * Text post-processing of OCR output: the line filter and longest-run pick
  * of `run_ocr`, the ordered OCR fallback over image transforms, and the PIN
  * and card-number extraction of the combined barcode-and-PIN scan.
  */
module Ocr {
  import opened Options
  import opened Text
  import opened Seqs
  import opened Config

  predicate NonEmpty(s: string) {
    s != []
  }

  /** `[ln.strip() for ln in raw.splitlines() if ln.strip()]`: the stripped
      lines of `raw` that are not empty, in order. */
  function Lines(raw: string): (r: seq<string>)
    ensures forall i :: 0 <= i < |r| ==> r[i] != [] && Trimmed(r[i])
  {
    StrippedLines(SplitLines(raw))
  }

  function StrippedLines(ls: seq<string>): (r: seq<string>)
    ensures forall i :: 0 <= i < |r| ==> r[i] != [] && Trimmed(r[i])
  {
    if ls == [] then []
    else (if Strip(ls[0]) != [] then [Strip(ls[0])] else []) + StrippedLines(ls[1..])
  }

  /** Every line stripped, in order. */
  function StripEach(ls: seq<string>): (r: seq<string>)
    ensures |r| == |ls|
    ensures forall j :: 0 <= j < |ls| ==> r[j] == Strip(ls[j])
  {
    seq(|ls|, j requires 0 <= j < |ls| => Strip(ls[j]))
  }

  /** Stripping then dropping empty lines keeps, in order, exactly the
      non-empty stripped lines. */
  lemma {:induction false} StrippedLinesKept(ls: seq<string>)
    ensures StrippedLines(ls) == Filter(StripEach(ls), NonEmpty)
  {
    if ls != [] {
      assert StripEach(ls)[1..] == StripEach(ls[1..]);
      StrippedLinesKept(ls[1..]);
    }
  }

  /** The lines of `raw` are its stripped lines that are not empty, in
      order: every one of them is the stripped form of a line of `raw`, and
      every line of `raw` that is not blank gives one. */
  lemma LinesKept(raw: string)
    ensures Lines(raw) == Filter(StripEach(SplitLines(raw)), NonEmpty)
    ensures forall i :: 0 <= i < |Lines(raw)| ==>
      exists j :: 0 <= j < |SplitLines(raw)| && Strip(SplitLines(raw)[j]) == Lines(raw)[i]
    ensures forall j :: 0 <= j < |SplitLines(raw)| && Strip(SplitLines(raw)[j]) != [] ==>
      Strip(SplitLines(raw)[j]) in Lines(raw)
  {
    var ls := SplitLines(raw);
    var m := StripEach(ls);
    StrippedLinesKept(ls);
    forall i | 0 <= i < |Lines(raw)|
      ensures exists j :: 0 <= j < |ls| && Strip(ls[j]) == Lines(raw)[i]
    {
      var j :| 0 <= j < |m| && m[j] == Lines(raw)[i];
    }
    forall j | 0 <= j < |ls| && Strip(ls[j]) != []
      ensures Strip(ls[j]) in Lines(raw)
    {
      assert NonEmpty(m[j]);
    }
  }

  predicate InOcrRange(s: string) {
    MinOcrDigits <= |s| <= MaxOcrDigits
  }

  /** The digit run of each line, kept when its length is in the OCR range. */
  function Readings(lines: seq<string>): (r: seq<string>)
    ensures forall i :: 0 <= i < |r| ==>
      InOcrRange(r[i]) && AllDigits(r[i]) && exists j :: 0 <= j < |lines| && DigitsOnly(lines[j]) == r[i]
    ensures forall j :: 0 <= j < |lines| && InOcrRange(DigitsOnly(lines[j])) ==> DigitsOnly(lines[j]) in r
  {
    if lines == [] then []
    else
      var d := DigitsOnly(lines[0]);
      var rest := Readings(lines[1..]);
      assert forall i :: 0 <= i < |rest| ==> exists j :: 0 <= j < |lines| && DigitsOnly(lines[j]) == rest[i] by {
        forall i | 0 <= i < |rest|
          ensures exists j :: 0 <= j < |lines| && DigitsOnly(lines[j]) == rest[i]
        {
          var j :| 0 <= j < |lines[1..]| && DigitsOnly(lines[1..][j]) == rest[i];
          assert DigitsOnly(lines[j + 1]) == rest[i];
        }
      }
      assert forall j :: 1 <= j < |lines| ==> lines[j] == lines[1..][j - 1];
      (if InOcrRange(d) then [d] else []) + rest
  }

  /** The digit run of every line, in order. */
  function Runs(lines: seq<string>): (r: seq<string>)
    ensures |r| == |lines|
    ensures forall j :: 0 <= j < |lines| ==> r[j] == DigitsOnly(lines[j])
  {
    seq(|lines|, j requires 0 <= j < |lines| => DigitsOnly(lines[j]))
  }

  /** The readings are the in-range digit runs of the lines, in line order. */
  lemma {:induction false} ReadingsKept(lines: seq<string>)
    ensures Readings(lines) == Filter(Runs(lines), InOcrRange)
  {
    if lines != [] {
      assert Runs(lines)[1..] == Runs(lines[1..]);
      ReadingsKept(lines[1..]);
    }
  }

  /** `xs[i]` is `v`, is kept by `p`, and every earlier kept element is
      strictly shorter. */
  predicate FirstKeptWith(xs: seq<string>, p: string -> bool, i: int, v: string) {
    && 0 <= i < |xs|
    && p(xs[i])
    && xs[i] == v
    && forall j :: 0 <= j < i && p(xs[j]) ==> |xs[j]| < |v|
  }

  /** The first longest element `max(key=len)` picks among the elements `p`
      keeps is, in `xs` itself, a kept element with every earlier kept
      element strictly shorter. */
  lemma {:induction false} FirstLongestKept(xs: seq<string>, p: string -> bool)
    requires Filter(xs, p) != []
    ensures exists i :: FirstKeptWith(xs, p, i, Filter(xs, p)[LongestIndex(Filter(xs, p))])
  {
    var ys := Filter(xs, p);
    var v := ys[LongestIndex(ys)];
    if p(xs[0]) && LongestIndex(ys) == 0 {
      assert FirstKeptWith(xs, p, 0, v);
    } else {
      var rest := Filter(xs[1..], p);
      if p(xs[0]) {
        LongestAfterHead(xs, p);
      } else {
        assert ys == rest;
      }
      FirstLongestKept(xs[1..], p);
      var i :| FirstKeptWith(xs[1..], p, i, v);
      ShiftFirstKept(xs, p, i, v);
    }
  }

  /** When the first kept element is not the longest, the longest kept
      element is the longest kept one of the tail, and is longer than the head. */
  lemma LongestAfterHead(xs: seq<string>, p: string -> bool)
    requires xs != [] && p(xs[0]) && LongestIndex(Filter(xs, p)) > 0
    ensures var ys, rest := Filter(xs, p), Filter(xs[1..], p);
      && rest != []
      && rest[LongestIndex(rest)] == ys[LongestIndex(ys)]
      && |xs[0]| < |ys[LongestIndex(ys)]|
  {
    var ys, rest := Filter(xs, p), Filter(xs[1..], p);
    assert ys == [xs[0]] + rest;
    LongestOfCons(xs[0], rest);
  }

  lemma ShiftFirstKept(xs: seq<string>, p: string -> bool, i: int, v: string)
    requires xs != [] && FirstKeptWith(xs[1..], p, i, v)
    requires p(xs[0]) ==> |xs[0]| < |v|
    ensures FirstKeptWith(xs, p, i + 1, v)
  {
    forall j | 0 <= j < i + 1 && p(xs[j])
      ensures |xs[j]| < |v|
    {
      if j > 0 {
        assert xs[j] == xs[1..][j - 1];
      }
    }
  }

  /** `run_ocr` on the recognised text: the first longest digit run among the
      lines whose run has 10 to 24 digits, or nothing when no line has one. */
  function RunOcr(raw: string): (r: Option<string>)
    ensures r.None? <==> forall j :: 0 <= j < |Lines(raw)| ==> !InOcrRange(DigitsOnly(Lines(raw)[j]))
    ensures r.Some? ==> InOcrRange(r.value) && AllDigits(r.value)
    ensures r.Some? ==> exists j :: FirstLongestRun(Lines(raw), j, r.value)
    ensures r.Some? ==> forall j :: 0 <= j < |Lines(raw)| && InOcrRange(DigitsOnly(Lines(raw)[j])) ==>
      |DigitsOnly(Lines(raw)[j])| <= |r.value|
  {
    LongestReading(Lines(raw))
  }

  /** The first longest in-range digit run of `lines`, if any. */
  function LongestReading(lines: seq<string>): (r: Option<string>)
    ensures r.None? <==> forall j :: 0 <= j < |lines| ==> !InOcrRange(DigitsOnly(lines[j]))
    ensures r.Some? ==> InOcrRange(r.value) && AllDigits(r.value)
    ensures r.Some? ==> exists j :: FirstLongestRun(lines, j, r.value)
    ensures r.Some? ==> forall j :: 0 <= j < |lines| && InOcrRange(DigitsOnly(lines[j])) ==>
      |DigitsOnly(lines[j])| <= |r.value|
  {
    var nums := Readings(lines);
    if nums != [] then
      LongestReadingIsFirst(lines);
      Some(nums[LongestIndex(nums)])
    else
      assert forall j :: 0 <= j < |lines| ==> !InOcrRange(DigitsOnly(lines[j]));
      None
  }

  /** Line `j`'s digit run is `v`, and every in-range run on an earlier line
      is strictly shorter. */
  predicate FirstLongestRun(lines: seq<string>, j: int, v: string) {
    && 0 <= j < |lines|
    && DigitsOnly(lines[j]) == v
    && forall j' :: 0 <= j' < j && InOcrRange(DigitsOnly(lines[j'])) ==> |DigitsOnly(lines[j'])| < |v|
  }

  /** The reading `max(key=len)` picks is at least as long as every in-range
      run, and no earlier line has one as long. */
  lemma LongestReadingIsFirst(lines: seq<string>)
    requires Readings(lines) != []
    ensures var nums := Readings(lines);
      && (exists j :: FirstLongestRun(lines, j, nums[LongestIndex(nums)]))
      && forall j :: 0 <= j < |lines| && InOcrRange(DigitsOnly(lines[j])) ==>
           |DigitsOnly(lines[j])| <= |nums[LongestIndex(nums)]|
  {
    var nums := Readings(lines);
    var k := LongestIndex(nums);
    forall j | 0 <= j < |lines| && InOcrRange(DigitsOnly(lines[j]))
      ensures |DigitsOnly(lines[j])| <= |nums[k]|
    {
      var i :| 0 <= i < |nums| && nums[i] == DigitsOnly(lines[j]);
    }
    ReadingsKept(lines);
    var runs := Runs(lines);
    FirstLongestKept(runs, InOcrRange);
    var i :| FirstKeptWith(runs, InOcrRange, i, nums[k]);
    assert FirstLongestRun(lines, i, nums[k]);
  }

  /** The image transforms the OCR fallback tries, in this order. */
  datatype OcrTransform =
    | Identity | Bilateral | GaussianBlur | AdaptiveMean | AdaptiveGaussian | Otsu | Median | Upscale

  const OcrTransforms: seq<OcrTransform> :=
    [Identity, Bilateral, GaussianBlur, AdaptiveMean, AdaptiveGaussian, Otsu, Median, Upscale]

  /** The text recogniser applied to a transformed crop: the raw text, or
      `None` when the transform or the recogniser raised. */
  type OcrEngine = OcrTransform -> Option<string>

  function ReadingOf(engine: OcrEngine, t: OcrTransform): Option<string> {
    match engine(t)
    case None => None
    case Some(raw) => RunOcr(raw)
  }

  /** The reading each transform yields, in the order they are tried. */
  function TransformReadings(engine: OcrEngine): (r: seq<Option<string>>)
    ensures |r| == |OcrTransforms|
    ensures forall i :: 0 <= i < |r| ==> r[i] == ReadingOf(engine, OcrTransforms[i])
  {
    seq(|OcrTransforms|, i requires 0 <= i < |OcrTransforms| => ReadingOf(engine, OcrTransforms[i]))
  }

  /** The OCR fallback of `_scan_1d`: the reading of the first transform, in
      order, whose recognised text holds a digit run in range. */
  function OcrFallback(engine: OcrEngine): (r: Option<string>)
    ensures r.None? <==> forall i :: 0 <= i < |OcrTransforms| ==> ReadingOf(engine, OcrTransforms[i]).None?
    ensures r.Some? ==> InOcrRange(r.value) && AllDigits(r.value)
  {
    var rs := TransformReadings(engine);
    var r := FirstSome(rs);
    assert r.Some? ==> exists i :: 0 <= i < |rs| && rs[i] == r;
    r
  }

  /** The first transform, in order, that yields a reading decides the
      fallback: later transforms are not consulted. */
  lemma OcrFallbackFirst(engine: OcrEngine, k: nat)
    requires k < |OcrTransforms| && ReadingOf(engine, OcrTransforms[k]).Some?
    requires forall i :: 0 <= i < k ==> ReadingOf(engine, OcrTransforms[i]).None?
    ensures OcrFallback(engine) == ReadingOf(engine, OcrTransforms[k])
  {
    FirstSomeAt(TransformReadings(engine), k);
  }

  // ---------------------------------------------------------------------
  // PIN and card number from the lines of the combined scan
  // ---------------------------------------------------------------------

  /** The whitespace tokens of all lines, in reading order. */
  function AllTokens(lines: seq<string>): (r: seq<string>)
  {
    if lines == [] then [] else AllTokens(lines[..|lines| - 1]) + Tokens(lines[|lines| - 1])
  }

  lemma {:induction false} AllTokensAppend(a: seq<string>, b: seq<string>)
    ensures AllTokens(a + b) == AllTokens(a) + AllTokens(b)
    decreases |b|
  {
    if b == [] {
      assert a + b == a;
    } else {
      var b' := b[..|b| - 1];
      DropLastOfAppend(a, b);
      AllTokensAppend(a, b');
    }
  }

  lemma AllTokensSnoc(lines: seq<string>, i: nat)
    requires i < |lines|
    ensures AllTokens(lines[..i + 1]) == AllTokens(lines[..i]) + Tokens(lines[i])
  {
    assert lines[..i + 1][..i] == lines[..i];
  }

  lemma AllTokensSplit(lines: seq<string>, i: nat)
    requires i <= |lines|
    ensures AllTokens(lines) == AllTokens(lines[..i]) + AllTokens(lines[i..])
  {
    SplitJoin(lines, i);
    AllTokensJoin(lines[..i], lines[i..], lines);
  }

  lemma AllTokensJoin(a: seq<string>, b: seq<string>, c: seq<string>)
    requires a + b == c
    ensures AllTokens(c) == AllTokens(a) + AllTokens(b)
  {
    AllTokensAppend(a, b);
  }

  /** A match among the tokens of the first lines is the match of the whole text. */
  lemma FindInPrefix(lines: seq<string>, i: nat, p: string -> bool)
    requires i <= |lines| && Find(AllTokens(lines[..i]), p).Some?
    ensures Find(AllTokens(lines), p) == Find(AllTokens(lines[..i]), p)
  {
    AllTokensSplit(lines, i);
    FindAppend(AllTokens(lines[..i]), AllTokens(lines[i..]), p);
  }

  /** A PIN: a token of exactly four digits. */
  predicate IsPinToken(t: string) {
    |t| == PinDigits && AllDigits(t)
  }

  /** The PIN loop of `_scan_1d_and_PIN`: the first line holding a 4-digit
      token gives its first such token. It is the first 4-digit token of the
      whole text. */
  method PickPin(lines: seq<string>) returns (pin: Option<string>)
    ensures pin == Find(AllTokens(lines), IsPinToken)
    ensures pin.Some? ==> IsPinToken(pin.value)
  {
    var i := 0;
    while i < |lines|
      invariant 0 <= i <= |lines|
      invariant Find(AllTokens(lines[..i]), IsPinToken) == None
    {
      var hits := Filter(Tokens(lines[i]), IsPinToken);
      AllTokensSnoc(lines, i);
      FindAppend(AllTokens(lines[..i]), Tokens(lines[i]), IsPinToken);
      FindIsFilterHead(Tokens(lines[i]), IsPinToken);
      if hits != [] {
        FindInPrefix(lines, i + 1, IsPinToken);
        pin := Some(hits[0]);
        return;
      }
      i := i + 1;
    }
    assert lines[..i] == lines;
    pin := None;
  }

  /** `t.isdigit()` on a token (tokens are never empty). */
  predicate IsNumberToken(t: string) {
    AllDigits(t)
  }

  predicate IsLongNumber(t: string) {
    AllDigits(t) && |t| >= MinOcrDigits
  }

  /** The non-empty digit runs of the lines, in order. */
  function NumericLines(lines: seq<string>): (r: seq<string>)
    ensures forall i :: 0 <= i < |r| ==> r[i] != [] && AllDigits(r[i])
  {
    if lines == [] then []
    else
      var d := DigitsOnly(lines[|lines| - 1]);
      NumericLines(lines[..|lines| - 1]) + (if d != [] then [d] else [])
  }

  /** The non-empty digit runs are the runs of the lines that are not
      empty, in line order. */
  lemma {:induction false} NumericLinesKept(lines: seq<string>)
    ensures NumericLines(lines) == Filter(Runs(lines), NonEmpty)
  {
    if lines != [] {
      var pre, d := lines[..|lines| - 1], DigitsOnly(lines[|lines| - 1]);
      RunsSnoc(lines);
      FilterAppend(Runs(pre), [d], NonEmpty);
      NumericLinesKept(pre);
    }
  }

  lemma RunsSnoc(lines: seq<string>)
    requires lines != []
    ensures Runs(lines) == Runs(lines[..|lines| - 1]) + [DigitsOnly(lines[|lines| - 1])]
  {
    FrontLast(Runs(lines));
  }

  /** `"".join(xs)`. */
  function Concat(xs: seq<string>): (r: string)
    ensures xs == [] ==> r == []
    ensures |xs| == 1 ==> r == xs[0]
    ensures (forall i :: 0 <= i < |xs| ==> AllDigits(xs[i])) ==> AllDigits(r)
  {
    if xs == [] then [] else Concat(xs[..|xs| - 1]) + xs[|xs| - 1]
  }

  /** Joining distributes over concatenation. */
  lemma {:induction false} ConcatAppend(a: seq<string>, b: seq<string>)
    ensures Concat(a + b) == Concat(a) + Concat(b)
    decreases |b|
  {
    if b == [] {
      assert a + b == a;
    } else {
      var b' := b[..|b| - 1];
      DropLastOfAppend(a, b);
      assert (a + b)[|a + b| - 1] == b[|b| - 1];
      ConcatAppend(a, b');
      assert Concat(b) == Concat(b') + b[|b| - 1];
    }
  }

  /** The joined digit runs are the digits of the whole text, in order. */
  lemma {:induction false} JoinedDigits(lines: seq<string>)
    ensures Concat(NumericLines(lines)) == DigitsOnly(Concat(lines))
  {
    if lines != [] {
      var pre, last := lines[..|lines| - 1], lines[|lines| - 1];
      var d := DigitsOnly(last);
      var tail := if d != [] then [d] else [];
      ConcatAppend(NumericLines(pre), tail);
      assert Concat(tail) == d by {
        if d != [] {
          assert tail[..0] == [];
          assert [] + d == d;
        }
      }
      DigitsOnlyAppend(Concat(pre), last);
      JoinedDigits(pre);
    }
  }

  /** The card-number candidates: every digit token of at least 10 digits;
      when there is none, the digit runs of two or more lines joined, if the
      joined number has 10 to 24 digits. */
  function CardCandidates(lines: seq<string>): (r: seq<string>)
    ensures forall i :: 0 <= i < |r| ==> AllDigits(r[i]) && |r[i]| >= MinOcrDigits
    ensures Filter(AllTokens(lines), IsLongNumber) == [] ==> |r| <= 1
  {
    var long := Filter(AllTokens(lines), IsLongNumber);
    if long != [] then long
    else
      var numeric := NumericLines(lines);
      if |numeric| >= 2 && InOcrRange(Concat(numeric)) then [Concat(numeric)] else []
  }

  /** The card number `_scan_1d_and_PIN` reads from its lines: the first
      longest candidate. */
  function CardReading(lines: seq<string>): (r: Option<string>)
    ensures r.Some? <==> CardCandidates(lines) != []
    ensures r.Some? ==> r.value in CardCandidates(lines) && AllDigits(r.value) && |r.value| >= MinOcrDigits
    ensures r.Some? ==> forall c :: c in CardCandidates(lines) ==> |c| <= |r.value|
  {
    var c := CardCandidates(lines);
    if c != [] then Some(c[LongestIndex(c)]) else None
  }

  /** What a card reading is: when the text holds a digit token of at least
      10 digits, the first longest such token (every earlier one is strictly
      shorter, none is longer); otherwise the join of two or more lines'
      digit runs, when it has 10 to 24 digits. */
  lemma CardReadingShape(lines: seq<string>)
    ensures (exists i :: 0 <= i < |AllTokens(lines)| && IsLongNumber(AllTokens(lines)[i])) ==>
      && CardReading(lines).Some?
      && (exists i :: FirstKeptWith(AllTokens(lines), IsLongNumber, i, CardReading(lines).value))
      && forall i :: 0 <= i < |AllTokens(lines)| && IsLongNumber(AllTokens(lines)[i]) ==>
           |AllTokens(lines)[i]| <= |CardReading(lines).value|
    ensures (forall i :: 0 <= i < |AllTokens(lines)| ==> !IsLongNumber(AllTokens(lines)[i])) ==>
      (CardReading(lines).Some? <==>
        |NumericLines(lines)| >= 2 && InOcrRange(Concat(NumericLines(lines)))) &&
      (CardReading(lines).Some? ==> CardReading(lines).value == Concat(NumericLines(lines)))
  {
    if exists i :: 0 <= i < |AllTokens(lines)| && IsLongNumber(AllTokens(lines)[i]) {
      LongTokenReading(lines);
    }
  }

  /** The long-token case of `CardReadingShape`. */
  lemma LongTokenReading(lines: seq<string>)
    requires exists i :: 0 <= i < |AllTokens(lines)| && IsLongNumber(AllTokens(lines)[i])
    ensures CardReading(lines).Some?
    ensures exists i :: FirstKeptWith(AllTokens(lines), IsLongNumber, i, CardReading(lines).value)
    ensures forall i :: 0 <= i < |AllTokens(lines)| && IsLongNumber(AllTokens(lines)[i]) ==>
      |AllTokens(lines)[i]| <= |CardReading(lines).value|
  {
    var toks := AllTokens(lines);
    var long := Filter(toks, IsLongNumber);
    var i :| 0 <= i < |toks| && IsLongNumber(toks[i]);
    assert toks[i] in long;
    var k := LongestIndex(long);
    assert CardReading(lines) == Some(long[k]);
    forall j | 0 <= j < |toks| && IsLongNumber(toks[j])
      ensures |toks[j]| <= |long[k]|
    {
      assert toks[j] in long;
    }
    FirstLongestKept(toks, IsLongNumber);
  }

  /** The card loops of `_scan_1d_and_PIN`. */
  method ExtractCard(lines: seq<string>) returns (card: Option<string>)
    ensures card == CardReading(lines)
  {
    var candidates := LongTokens(lines);
    if candidates == [] {
      var numlines := DigitLines(lines);
      if |numlines| >= 2 {
        var joined := Concat(numlines);
        if MinOcrDigits <= |joined| <= MaxOcrDigits {
          candidates := candidates + [joined];
        }
      }
    }
    if candidates != [] {
      card := Some(candidates[LongestIndex(candidates)]);
    } else {
      card := None;
    }
  }

  /** The first card loop: the digit tokens of at least 10 digits, line by line. */
  method LongTokens(lines: seq<string>) returns (candidates: seq<string>)
    ensures candidates == Filter(AllTokens(lines), IsLongNumber)
  {
    candidates := [];
    var i := 0;
    while i < |lines|
      invariant 0 <= i <= |lines|
      invariant candidates == Filter(AllTokens(lines[..i]), IsLongNumber)
    {
      var tokens := Filter(Tokens(lines[i]), IsNumberToken);
      var longtok := Filter(tokens, t => |t| >= MinOcrDigits);
      FilterTwice(Tokens(lines[i]));
      AllTokensSnoc(lines, i);
      FilterAppend(AllTokens(lines[..i]), Tokens(lines[i]), IsLongNumber);
      candidates := candidates + longtok;
      i := i + 1;
    }
    assert lines[..i] == lines;
  }

  /** The second card loop: the non-empty digit runs of the lines. */
  method DigitLines(lines: seq<string>) returns (numlines: seq<string>)
    ensures numlines == NumericLines(lines)
  {
    numlines := [];
    var i := 0;
    while i < |lines|
      invariant 0 <= i <= |lines|
      invariant numlines == NumericLines(lines[..i])
    {
      var numeric := DigitsOnly(lines[i]);
      assert lines[..i + 1][..i] == lines[..i];
      if numeric != [] {
        numlines := numlines + [numeric];
      }
      i := i + 1;
    }
    assert lines[..i] == lines;
  }

  /** Keeping the digit tokens, then the long ones, keeps the long numbers. */
  lemma {:induction false} FilterTwice(ts: seq<string>)
    ensures Filter(Filter(ts, IsNumberToken), t => |t| >= MinOcrDigits) == Filter(ts, IsLongNumber)
  {
    if ts != [] {
      FilterTwice(ts[1..]);
      FilterAppend(if IsNumberToken(ts[0]) then [ts[0]] else [], Filter(ts[1..], IsNumberToken), t => |t| >= MinOcrDigits);
    }
  }
}
