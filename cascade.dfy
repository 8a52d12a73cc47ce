/**
  * The decode cascade of `_scan_1d`, `_try_multiple_scales`,
  * `_try_rotations` and `_scan_barcodes_only`, and the rotated-crop fallback
  * shared by the live and the one-shot paths. The image variants and the
  * barcode library are an uninterpreted decoder: what is modelled is which
  * attempts are made, in which order, and that the first success wins.
  */
module Cascade {
  import opened Options
  import opened Text
  import opened Geometry
  import opened Ocr
  import Seqs

  /** The preprocessed images built from a crop. */
  datatype Variant = Gray | Sharp | Closed | Enhanced | Binary | InvBinary | Adaptive

  /** The candidate list, in the order it is built. */
  const Variants: seq<Variant> := [Gray, Sharp, Closed, Enhanced, Binary, InvBinary, Adaptive]

  const ScalePercents: seq<nat> := [80, 100, 120, 150, 200]
  const Angles: seq<nat> := [0, 90, 180, 270]

  /** `name in ["binary", "sharp", "closed"]`. */
  predicate BestForScaling(v: Variant) {
    v == Binary || v == Sharp || v == Closed
  }

  /** `name in ["binary", "inv_binary"]`. */
  predicate BestForRotation(v: Variant) {
    v == Binary || v == InvBinary
  }

  predicate AnyVariant(v: Variant) {
    true
  }

  /** One decode call: a variant as is, resized, or rotated. */
  datatype Attempt = Plain(v: Variant) | Scaled(v: Variant, percent: nat) | Rotated(v: Variant, degrees: nat)

  /** One result of the barcode library: payload, symbology and polygon. */
  datatype Symbol = Symbol(data: string, kind: string, polygon: seq<Point>)

  /** The barcode library on the image an attempt produces (restricted to the
      configured symbologies): its results, in its own order. */
  type Decoder = Attempt -> seq<Symbol>

  /** A recognition candidate: trimmed text, symbology, polygon in crop coordinates. */
  datatype Candidate = Candidate(text: string, kind: string, polygon: seq<Point>)

  /** A library result as a candidate: its payload stripped, its
      symbology and polygon as they are. */
  function ToCandidate(s: Symbol): (c: Candidate)
    ensures c.text == Strip(s.data) && c.kind == s.kind && c.polygon == s.polygon
    ensures Trimmed(c.text)
  {
    Candidate(Strip(s.data), s.kind, s.polygon)
  }

  // ---------------------------------------------------------------------
  // First-success search
  // ---------------------------------------------------------------------

  /** The results of the first attempt, in order, that decodes anything. */
  function FirstDecoded(attempts: seq<Attempt>, decode: Decoder): (r: seq<Symbol>)
    ensures r == [] <==> forall i :: 0 <= i < |attempts| ==> decode(attempts[i]) == []
  {
    if attempts == [] then []
    else if decode(attempts[0]) != [] then decode(attempts[0])
    else FirstDecoded(attempts[1..], decode)
  }

  /** The search returns the results of the attempt every earlier one of which failed. */
  lemma {:induction false} FirstDecodedAt(attempts: seq<Attempt>, decode: Decoder, k: nat)
    requires k < |attempts| && decode(attempts[k]) != []
    requires forall j :: 0 <= j < k ==> decode(attempts[j]) == []
    ensures FirstDecoded(attempts, decode) == decode(attempts[k])
  {
    if k > 0 {
      FirstDecodedAt(attempts[1..], decode, k - 1);
    }
  }

  lemma {:induction false} FirstDecodedAppend(a: seq<Attempt>, b: seq<Attempt>, decode: Decoder)
    ensures FirstDecoded(a + b, decode) ==
      if FirstDecoded(a, decode) != [] then FirstDecoded(a, decode) else FirstDecoded(b, decode)
  {
    if a == [] {
      assert a + b == b;
    } else {
      assert (a + b)[1..] == a[1..] + b;
      FirstDecodedAppend(a[1..], b, decode);
    }
  }

  /** Short circuit: once an attempt succeeds, the later attempts do not
      matter; two decoders that agree up to the first success give the same
      result. */
  lemma FirstDecodedIgnoresLater(attempts: seq<Attempt>, d1: Decoder, d2: Decoder, k: nat)
    requires k < |attempts| && d1(attempts[k]) != []
    requires forall j :: 0 <= j < k ==> d1(attempts[j]) == []
    requires forall j :: 0 <= j <= k ==> d2(attempts[j]) == d1(attempts[j])
    ensures FirstDecoded(attempts, d2) == FirstDecoded(attempts, d1) == d1(attempts[k])
  {
    FirstDecodedAt(attempts, d1, k);
    FirstDecodedAt(attempts, d2, k);
  }

  // ---------------------------------------------------------------------
  // The attempt order
  // ---------------------------------------------------------------------

  function PlainRow(v: Variant): seq<Attempt> {
    [Plain(v)]
  }

  /** `_try_multiple_scales` on one variant. */
  function ScaleRow(v: Variant): (r: seq<Attempt>)
    ensures |r| == |ScalePercents|
    ensures forall j :: 0 <= j < |r| ==> r[j] == Scaled(v, ScalePercents[j])
  {
    seq(|ScalePercents|, j requires 0 <= j < |ScalePercents| => Scaled(v, ScalePercents[j]))
  }

  /** `_try_rotations` on one variant. */
  function RotationRow(v: Variant): (r: seq<Attempt>)
    ensures |r| == |Angles|
    ensures forall j :: 0 <= j < |r| ==> r[j] == Rotated(v, Angles[j])
  {
    seq(|Angles|, j requires 0 <= j < |Angles| => Rotated(v, Angles[j]))
  }

  /** `for name, img in candidates: if keep(name): <row of name>`. */
  function Pass(vs: seq<Variant>, keep: Variant -> bool, row: Variant -> seq<Attempt>): seq<Attempt> {
    if vs == [] then []
    else Pass(vs[..|vs| - 1], keep, row) + (if keep(vs[|vs| - 1]) then row(vs[|vs| - 1]) else [])
  }

  function PlainPass(): seq<Attempt> {
    Pass(Variants, AnyVariant, PlainRow)
  }

  function ScalePass(): seq<Attempt> {
    Pass(Variants, BestForScaling, ScaleRow)
  }

  function RotationPass(): seq<Attempt> {
    Pass(Variants, BestForRotation, RotationRow)
  }

  /** Every barcode attempt of `_scan_1d`, in the order it makes them. */
  function CascadeOrder(): seq<Attempt> {
    PlainPass() + ScalePass() + RotationPass()
  }

  lemma {:induction false} PassAppend(a: seq<Variant>, b: seq<Variant>, keep: Variant -> bool, row: Variant -> seq<Attempt>)
    ensures Pass(a + b, keep, row) == Pass(a, keep, row) + Pass(b, keep, row)
    decreases |b|
  {
    if b == [] {
      assert a + b == a;
    } else {
      var b' := b[..|b| - 1];
      assert (a + b)[..|a + b| - 1] == a + b';
      PassAppend(a, b', keep, row);
    }
  }

  lemma PassOne(v: Variant, keep: Variant -> bool, row: Variant -> seq<Attempt>)
    ensures Pass([v], keep, row) == if keep(v) then row(v) else []
  {
    assert [v][..0] == [];
  }

  /** A variant whose row decodes nothing extends the failed prefix of a pass. */
  lemma MissInPass(pre: seq<Attempt>, vs: seq<Variant>, i: nat, keep: Variant -> bool,
                   row: Variant -> seq<Attempt>, decode: Decoder)
    requires i < |vs|
    requires FirstDecoded(pre + Pass(vs[..i], keep, row), decode) == []
    requires keep(vs[i]) ==> FirstDecoded(row(vs[i]), decode) == []
    ensures FirstDecoded(pre + Pass(vs[..i + 1], keep, row), decode) == []
  {
    var a := pre + Pass(vs[..i], keep, row);
    var b := if keep(vs[i]) then row(vs[i]) else [];
    assert vs[..i + 1][..i] == vs[..i];
    assert Pass(vs[..i + 1], keep, row) == Pass(vs[..i], keep, row) + b;
    assert pre + Pass(vs[..i + 1], keep, row) == a + b;
    FirstDecodedAppend(a, b, decode);
  }

  /** The first variant whose row decodes something decides the whole search. */
  lemma HitInPass(pre: seq<Attempt>, vs: seq<Variant>, i: nat, keep: Variant -> bool,
                  row: Variant -> seq<Attempt>, post: seq<Attempt>, decode: Decoder)
    requires i < |vs| && keep(vs[i])
    requires FirstDecoded(pre + Pass(vs[..i], keep, row), decode) == []
    requires FirstDecoded(row(vs[i]), decode) != []
    ensures FirstDecoded(pre + Pass(vs, keep, row) + post, decode) == FirstDecoded(row(vs[i]), decode)
  {
    assert vs == vs[..i] + [vs[i]] + vs[i + 1..];
    PassAppend(vs[..i] + [vs[i]], vs[i + 1..], keep, row);
    PassAppend(vs[..i], [vs[i]], keep, row);
    PassOne(vs[i], keep, row);
    var a := pre + Pass(vs[..i], keep, row);
    var b := row(vs[i]);
    var c := Pass(vs[i + 1..], keep, row) + post;
    assert pre + Pass(vs, keep, row) + post == a + (b + c);
    FirstDecodedAppend(a, b + c, decode);
    FirstDecodedAppend(b, c, decode);
  }

  /** A search that fails on a whole pass fails on the prefix ending with it. */
  lemma PassDone(pre: seq<Attempt>, vs: seq<Variant>, keep: Variant -> bool, row: Variant -> seq<Attempt>, decode: Decoder)
    requires FirstDecoded(pre + Pass(vs[..|vs|], keep, row), decode) == []
    ensures FirstDecoded(pre + Pass(vs, keep, row), decode) == []
  {
    assert vs[..|vs|] == vs;
  }

  lemma PassSnoc(vs: seq<Variant>, v: Variant, keep: Variant -> bool, row: Variant -> seq<Attempt>)
    ensures Pass(vs + [v], keep, row) == Pass(vs, keep, row) + (if keep(v) then row(v) else [])
  {
    assert (vs + [v])[..|vs|] == vs;
  }

  /** The first pass tries the seven variants as built: gray, sharp, closed,
      enhanced, binary, inverted binary, adaptive. */
  lemma PlainPassListing()
    ensures PlainPass() == [Plain(Gray), Plain(Sharp), Plain(Closed), Plain(Enhanced),
                            Plain(Binary), Plain(InvBinary), Plain(Adaptive)]
  {
    var s1 := [Gray];
    var s2 := s1 + [Sharp];
    var s3 := s2 + [Closed];
    var s4 := s3 + [Enhanced];
    var s5 := s4 + [Binary];
    var s6 := s5 + [InvBinary];
    assert Pass(s1, AnyVariant, PlainRow) ==
      PlainRow(Gray) by {
      assert [] + [Gray] == s1;
      PassSnoc([], Gray, AnyVariant, PlainRow);
    }
    assert Pass(s2, AnyVariant, PlainRow) ==
      PlainRow(Gray) + PlainRow(Sharp) by {
      PassSnoc(s1, Sharp, AnyVariant, PlainRow);
    }
    assert Pass(s3, AnyVariant, PlainRow) ==
      PlainRow(Gray) + PlainRow(Sharp) + PlainRow(Closed) by {
      PassSnoc(s2, Closed, AnyVariant, PlainRow);
    }
    assert Pass(s4, AnyVariant, PlainRow) ==
      PlainRow(Gray) + PlainRow(Sharp) + PlainRow(Closed) + PlainRow(Enhanced) by {
      PassSnoc(s3, Enhanced, AnyVariant, PlainRow);
    }
    assert Pass(s5, AnyVariant, PlainRow) ==
      PlainRow(Gray) + PlainRow(Sharp) + PlainRow(Closed) + PlainRow(Enhanced) + PlainRow(Binary) by {
      PassSnoc(s4, Binary, AnyVariant, PlainRow);
    }
    assert Pass(s6, AnyVariant, PlainRow) ==
      PlainRow(Gray) + PlainRow(Sharp) + PlainRow(Closed) + PlainRow(Enhanced) + PlainRow(Binary) + PlainRow(InvBinary) by {
      PassSnoc(s5, InvBinary, AnyVariant, PlainRow);
    }
    assert Pass(Variants, AnyVariant, PlainRow) ==
      PlainRow(Gray) + PlainRow(Sharp) + PlainRow(Closed) + PlainRow(Enhanced) + PlainRow(Binary) + PlainRow(InvBinary) + PlainRow(Adaptive) by {
      assert s6 + [Adaptive] == Variants;
      PassSnoc(s6, Adaptive, AnyVariant, PlainRow);
    }
  }

  /** The scaling pass visits sharp, closed and binary in the candidate
      list's order (not the order `best_for_scaling` is written in). */
  lemma ScalePassListing()
    ensures ScalePass() == ScaleRow(Sharp) + ScaleRow(Closed) + ScaleRow(Binary)
  {
    var s1 := [Gray];
    var s2 := s1 + [Sharp];
    var s3 := s2 + [Closed];
    var s4 := s3 + [Enhanced];
    var s5 := s4 + [Binary];
    var s6 := s5 + [InvBinary];
    assert Pass(s1, BestForScaling, ScaleRow) ==
      [] by {
      assert [] + [Gray] == s1;
      PassSnoc([], Gray, BestForScaling, ScaleRow);
    }
    assert Pass(s2, BestForScaling, ScaleRow) ==
      ScaleRow(Sharp) by {
      PassSnoc(s1, Sharp, BestForScaling, ScaleRow);
    }
    assert Pass(s3, BestForScaling, ScaleRow) ==
      ScaleRow(Sharp) + ScaleRow(Closed) by {
      PassSnoc(s2, Closed, BestForScaling, ScaleRow);
    }
    assert Pass(s4, BestForScaling, ScaleRow) ==
      ScaleRow(Sharp) + ScaleRow(Closed) by {
      PassSnoc(s3, Enhanced, BestForScaling, ScaleRow);
    }
    assert Pass(s5, BestForScaling, ScaleRow) ==
      ScaleRow(Sharp) + ScaleRow(Closed) + ScaleRow(Binary) by {
      PassSnoc(s4, Binary, BestForScaling, ScaleRow);
    }
    assert Pass(s6, BestForScaling, ScaleRow) ==
      ScaleRow(Sharp) + ScaleRow(Closed) + ScaleRow(Binary) by {
      PassSnoc(s5, InvBinary, BestForScaling, ScaleRow);
    }
    assert Pass(Variants, BestForScaling, ScaleRow) ==
      ScaleRow(Sharp) + ScaleRow(Closed) + ScaleRow(Binary) by {
      assert s6 + [Adaptive] == Variants;
      PassSnoc(s6, Adaptive, BestForScaling, ScaleRow);
    }
  }

  /** The rotation pass visits binary, then inverted binary. */
  lemma RotationPassListing()
    ensures RotationPass() == RotationRow(Binary) + RotationRow(InvBinary)
  {
    var s1 := [Gray];
    var s2 := s1 + [Sharp];
    var s3 := s2 + [Closed];
    var s4 := s3 + [Enhanced];
    var s5 := s4 + [Binary];
    var s6 := s5 + [InvBinary];
    assert Pass(s1, BestForRotation, RotationRow) ==
      [] by {
      assert [] + [Gray] == s1;
      PassSnoc([], Gray, BestForRotation, RotationRow);
    }
    assert Pass(s2, BestForRotation, RotationRow) ==
      [] by {
      PassSnoc(s1, Sharp, BestForRotation, RotationRow);
    }
    assert Pass(s3, BestForRotation, RotationRow) ==
      [] by {
      PassSnoc(s2, Closed, BestForRotation, RotationRow);
    }
    assert Pass(s4, BestForRotation, RotationRow) ==
      [] by {
      PassSnoc(s3, Enhanced, BestForRotation, RotationRow);
    }
    assert Pass(s5, BestForRotation, RotationRow) ==
      RotationRow(Binary) by {
      PassSnoc(s4, Binary, BestForRotation, RotationRow);
    }
    assert Pass(s6, BestForRotation, RotationRow) ==
      RotationRow(Binary) + RotationRow(InvBinary) by {
      PassSnoc(s5, InvBinary, BestForRotation, RotationRow);
    }
    assert Pass(Variants, BestForRotation, RotationRow) ==
      RotationRow(Binary) + RotationRow(InvBinary) by {
      assert s6 + [Adaptive] == Variants;
      PassSnoc(s6, Adaptive, BestForRotation, RotationRow);
    }
  }

  /** Each scaled row tries 80, 100, 120, 150 and 200 percent; each rotated
      row 0, 90, 180 and 270 degrees; the whole order has 7 + 15 + 8 attempts. */
  lemma CascadeOrderShape()
    ensures ScaleRow(Sharp) == [Scaled(Sharp, 80), Scaled(Sharp, 100), Scaled(Sharp, 120), Scaled(Sharp, 150), Scaled(Sharp, 200)]
    ensures RotationRow(Binary) == [Rotated(Binary, 0), Rotated(Binary, 90), Rotated(Binary, 180), Rotated(Binary, 270)]
    ensures |CascadeOrder()| == 30
    ensures CascadeOrder()[7] == Scaled(Sharp, 80) && CascadeOrder()[22] == Rotated(Binary, 0)
  {
    PlainPassListing();
    ScalePassListing();
    RotationPassListing();
  }

  // ---------------------------------------------------------------------
  // The scan methods
  // ---------------------------------------------------------------------

  /** `_try_multiple_scales`: the first scale, in order, at which the variant decodes. */
  method TryMultipleScales(decode: Decoder, v: Variant) returns (results: seq<Symbol>)
    ensures results == FirstDecoded(ScaleRow(v), decode)
  {
    var row := ScaleRow(v);
    var j := 0;
    while j < |ScalePercents|
      invariant 0 <= j <= |ScalePercents|
      invariant forall k :: 0 <= k < j ==> decode(row[k]) == []
    {
      results := decode(Scaled(v, ScalePercents[j]));
      if results != [] {
        FirstDecodedAt(row, decode, j);
        return;
      }
      j := j + 1;
    }
    results := [];
  }

  /** `_try_rotations`: the first angle, in order, at which the variant decodes. */
  method TryRotations(decode: Decoder, v: Variant) returns (results: seq<Symbol>)
    ensures results == FirstDecoded(RotationRow(v), decode)
  {
    var row := RotationRow(v);
    var j := 0;
    while j < |Angles|
      invariant 0 <= j <= |Angles|
      invariant forall k :: 0 <= k < j ==> decode(row[k]) == []
    {
      results := decode(Rotated(v, Angles[j]));
      if results != [] {
        FirstDecodedAt(row, decode, j);
        return;
      }
      j := j + 1;
    }
    results := [];
  }

  /** The OCR candidate covering the whole crop. */
  function FullBox(w: int, h: int): seq<Point> {
    [Point(0, 0), Point(w, 0), Point(w, h), Point(0, h)]
  }

  /** What `_scan_1d` returns as its card for a `w` by `h` crop: the first
      result of the first attempt of the cascade that decodes anything;
      otherwise, when OCR is switched on, the OCR fallback's reading. */
  function Scan1DResult(decode: Decoder, ocrEnabled: bool, engine: OcrEngine, w: int, h: int): (r: Option<Candidate>)
    ensures r.Some? ==> Trimmed(r.value.text)
    ensures FirstDecoded(CascadeOrder(), decode) != [] ==>
      r == Some(ToCandidate(FirstDecoded(CascadeOrder(), decode)[0]))
    ensures ocrEnabled && FirstDecoded(CascadeOrder(), decode) == [] ==> (r.Some? <==> OcrFallback(engine).Some?)
    ensures ocrEnabled && FirstDecoded(CascadeOrder(), decode) == [] && r.Some? ==>
      r.value == Candidate(OcrFallback(engine).value, "OCR", FullBox(w, h))
    ensures !ocrEnabled ==> (r.None? <==> forall i :: 0 <= i < |CascadeOrder()| ==> decode(CascadeOrder()[i]) == [])
  {
    ScanOutcome(FirstDecoded(CascadeOrder(), decode), ocrEnabled, engine, w, h)
  }

  /** The card `_scan_1d` makes of the cascade's results `rs`. */
  function ScanOutcome(rs: seq<Symbol>, ocrEnabled: bool, engine: OcrEngine, w: int, h: int): (r: Option<Candidate>)
    ensures r.Some? ==> Trimmed(r.value.text)
    ensures rs != [] ==> r == Some(ToCandidate(rs[0]))
    ensures ocrEnabled && rs == [] ==> (r.Some? <==> OcrFallback(engine).Some?)
    ensures ocrEnabled && rs == [] && r.Some? ==>
      r.value == Candidate(OcrFallback(engine).value, "OCR", FullBox(w, h))
    ensures !ocrEnabled ==> (r.None? <==> rs == [])
  {
    if rs != [] then Some(ToCandidate(rs[0]))
    else if ocrEnabled then
      match OcrFallback(engine)
      case Some(n) =>
        DigitsAreStripped(n);
        Some(Candidate(n, "OCR", FullBox(w, h)))
      case None => None
    else None
  }

  /** The first loop of `_scan_1d`: every variant as it is. */
  method PlainScan(decode: Decoder) returns (results: seq<Symbol>)
    ensures results == FirstDecoded(PlainPass(), decode)
  {
    var i := 0;
    while i < |Variants|
      invariant 0 <= i <= |Variants|
      invariant FirstDecoded([] + Pass(Variants[..i], AnyVariant, PlainRow), decode) == []
    {
      results := decode(Plain(Variants[i]));
      assert FirstDecoded(PlainRow(Variants[i]), decode) == results;
      if results != [] {
        HitInPass([], Variants, i, AnyVariant, PlainRow, [], decode);
        assert [] + PlainPass() + [] == PlainPass();
        return;
      }
      MissInPass([], Variants, i, AnyVariant, PlainRow, decode);
      i := i + 1;
    }
    PassDone([], Variants, AnyVariant, PlainRow, decode);
    assert [] + PlainPass() == PlainPass();
    results := [];
  }

  /** The second loop of `_scan_1d`: the variants best for scaling, at every scale. */
  method ScaleScan(decode: Decoder) returns (results: seq<Symbol>)
    ensures results == FirstDecoded(ScalePass(), decode)
  {
    var i := 0;
    while i < |Variants|
      invariant 0 <= i <= |Variants|
      invariant FirstDecoded([] + Pass(Variants[..i], BestForScaling, ScaleRow), decode) == []
    {
      if BestForScaling(Variants[i]) {
        results := TryMultipleScales(decode, Variants[i]);
        if results != [] {
          HitInPass([], Variants, i, BestForScaling, ScaleRow, [], decode);
          assert [] + ScalePass() + [] == ScalePass();
          return;
        }
      }
      MissInPass([], Variants, i, BestForScaling, ScaleRow, decode);
      i := i + 1;
    }
    PassDone([], Variants, BestForScaling, ScaleRow, decode);
    assert [] + ScalePass() == ScalePass();
    results := [];
  }

  /** The third loop of `_scan_1d`: the binary variants, at every angle. */
  method RotationScan(decode: Decoder) returns (results: seq<Symbol>)
    ensures results == FirstDecoded(RotationPass(), decode)
  {
    var i := 0;
    while i < |Variants|
      invariant 0 <= i <= |Variants|
      invariant FirstDecoded([] + Pass(Variants[..i], BestForRotation, RotationRow), decode) == []
    {
      if BestForRotation(Variants[i]) {
        results := TryRotations(decode, Variants[i]);
        if results != [] {
          HitInPass([], Variants, i, BestForRotation, RotationRow, [], decode);
          assert [] + RotationPass() + [] == RotationPass();
          return;
        }
      }
      MissInPass([], Variants, i, BestForRotation, RotationRow, decode);
      i := i + 1;
    }
    PassDone([], Variants, BestForRotation, RotationRow, decode);
    assert [] + RotationPass() == RotationPass();
    results := [];
  }

  /** The OCR loop of `_scan_1d`: the transforms in order, until one yields a reading. */
  method OcrScan(engine: OcrEngine) returns (reading: Option<string>)
    ensures reading == OcrFallback(engine)
  {
    reading := Seqs.FirstPresent(TransformReadings(engine));
  }

  /** `_scan_1d` (its card part; its PIN is always `None`). */
  method Scan1D(decode: Decoder, ocrEnabled: bool, engine: OcrEngine, w: int, h: int) returns (card: Option<Candidate>)
    ensures card == Scan1DResult(decode, ocrEnabled, engine, w, h)
  {
    FirstDecodedAppend(PlainPass() + ScalePass(), RotationPass(), decode);
    FirstDecodedAppend(PlainPass(), ScalePass(), decode);
    var results := PlainScan(decode);
    if results == [] {
      results := ScaleScan(decode);
      if results == [] {
        results := RotationScan(decode);
      }
    }
    if results != [] {
      card := Some(ToCandidate(results[0]));
      return;
    }
    card := None;
    if ocrEnabled {
      var reading := OcrScan(engine);
      if reading.Some? {
        card := Some(Candidate(reading.value, "OCR", FullBox(w, h)));
      }
    }
  }

  /** The two attempts of `_scan_barcodes_only`: closed, then sharp. */
  const BarcodesOnlyOrder: seq<Attempt> := [Plain(Closed), Plain(Sharp)]

  /** The closed variant's results when it decodes anything, else the sharp one's. */
  lemma BarcodesOnlyFirst(decode: Decoder)
    ensures FirstDecoded(BarcodesOnlyOrder, decode) ==
      if decode(Plain(Closed)) != [] then decode(Plain(Closed)) else decode(Plain(Sharp))
  {
    assert BarcodesOnlyOrder[1..] == [Plain(Sharp)];
    assert BarcodesOnlyOrder[1..][1..] == [];
  }

  /** `_scan_barcodes_only`: every result of the closed variant or, when it
      decodes nothing, of the sharp one, each trimmed. */
  method ScanBarcodesOnly(decode: Decoder) returns (out: seq<Candidate>)
    ensures |out| == |FirstDecoded(BarcodesOnlyOrder, decode)|
    ensures forall i :: 0 <= i < |out| ==> out[i] == ToCandidate(FirstDecoded(BarcodesOnlyOrder, decode)[i])
  {
    var results := decode(Plain(Closed));
    if results == [] {
      results := decode(Plain(Sharp));
    }
    BarcodesOnlyFirst(decode);
    out := ToCandidates(results);
  }

  /** The result loop of `_scan_barcodes_only`: every result, trimmed. */
  method ToCandidates(results: seq<Symbol>) returns (out: seq<Candidate>)
    ensures |out| == |results|
    ensures forall i :: 0 <= i < |out| ==> out[i] == ToCandidate(results[i])
  {
    out := [];
    var i := 0;
    while i < |results|
      invariant 0 <= i <= |results|
      invariant |out| == i
      invariant forall k :: 0 <= k < i ==> out[k] == ToCandidate(results[k])
    {
      out := out + [ToCandidate(results[i])];
      i := i + 1;
    }
  }

  /** The card a scan cycle finds in a `w` by `h` crop: `_scan_1d`'s, or
      else the first result of `_scan_barcodes_only` on the crop rotated 90
      degrees clockwise, its polygon mapped back into the crop. */
  function DetectResult(decode: Decoder, rotated: Decoder, ocrEnabled: bool, engine: OcrEngine, w: int, h: int): (r: Option<Candidate>)
    ensures r.Some? ==> Trimmed(r.value.text)
    ensures r.None? <==> Scan1DResult(decode, ocrEnabled, engine, w, h).None? && FirstDecoded(BarcodesOnlyOrder, rotated) == []
    ensures Scan1DResult(decode, ocrEnabled, engine, w, h).Some? ==> r == Scan1DResult(decode, ocrEnabled, engine, w, h)
    ensures var rs := FirstDecoded(BarcodesOnlyOrder, rotated);
      Scan1DResult(decode, ocrEnabled, engine, w, h).None? && rs != [] ==>
        r == Some(Candidate(Strip(rs[0].data), rs[0].kind, RotateBackPolygon(rs[0].polygon, h)))
  {
    var direct := Scan1DResult(decode, ocrEnabled, engine, w, h);
    if direct.Some? then direct
    else
      var rs := FirstDecoded(BarcodesOnlyOrder, rotated);
      if rs == [] then None
      else
        var c := ToCandidate(rs[0]);
        Some(Candidate(c.text, c.kind, RotateBackPolygon(c.polygon, h)))
  }

  /** The detection step of a cycle, on the crop of the region `roi`. */
  method DetectInRoi(decode: Decoder, rotated: Decoder, ocrEnabled: bool, engine: OcrEngine, roi: Rect)
    returns (card: Option<Candidate>)
    ensures card == CycleCard(decode, rotated, ocrEnabled, engine, roi)
  {
    card := Detect(decode, rotated, ocrEnabled, engine, Width(roi), Height(roi));
  }

  /** The crop-to-frame offset of the card's polygon. */
  method BoxInFrame(card: Option<Candidate>, roi: Rect) returns (box: seq<Point>)
    ensures box == CycleBox(card, roi)
  {
    box := [];
    if card.Some? {
      box := OffsetPolygon(card.value.polygon, roi.x0, roi.y0);
    }
  }

  /** The card a cycle detects in the crop of the region `roi`. */
  function CycleCard(decode: Decoder, rotated: Decoder, ocrEnabled: bool, engine: OcrEngine, roi: Rect): Option<Candidate> {
    DetectResult(decode, rotated, ocrEnabled, engine, Width(roi), Height(roi))
  }

  /** The box drawn for a cycle's card, in frame coordinates. */
  function CycleBox(card: Option<Candidate>, roi: Rect): seq<Point> {
    match card
    case Some(c) => OffsetPolygon(c.polygon, roi.x0, roi.y0)
    case None => []
  }

  /** The rotated crop is consulted only when the direct scan finds nothing,
      and a barcode it finds keeps the polygon inside the crop. */
  lemma DetectFallbackOnly(decode: Decoder, rotated: Decoder, ocrEnabled: bool, engine: OcrEngine, w: nat, h: nat)
    ensures Scan1DResult(decode, ocrEnabled, engine, w, h).Some? ==>
      DetectResult(decode, rotated, ocrEnabled, engine, w, h) == Scan1DResult(decode, ocrEnabled, engine, w, h)
    ensures Scan1DResult(decode, ocrEnabled, engine, w, h).None? ==>
      (DetectResult(decode, rotated, ocrEnabled, engine, w, h).Some? <==> FirstDecoded(BarcodesOnlyOrder, rotated) != [])
    ensures var rs := FirstDecoded(BarcodesOnlyOrder, rotated);
      Scan1DResult(decode, ocrEnabled, engine, w, h).None? && rs != [] && PolygonInImage(rs[0].polygon, h, w) ==>
        PolygonInImage(DetectResult(decode, rotated, ocrEnabled, engine, w, h).value.polygon, w, h)
  {
    var rs := FirstDecoded(BarcodesOnlyOrder, rotated);
    if Scan1DResult(decode, ocrEnabled, engine, w, h).None? && rs != [] && PolygonInImage(rs[0].polygon, h, w) {
      var back := RotateBackPolygon(rs[0].polygon, h);
      forall i | 0 <= i < |back|
        ensures InImage(back[i], w, h)
      {
        RotateBackInImage(rs[0].polygon[i], h, w);
      }
    }
  }

  /** The detection step of `update_frame` and `_process_frozen_frame`. */
  method Detect(decode: Decoder, rotated: Decoder, ocrEnabled: bool, engine: OcrEngine, w: int, h: int)
    returns (card: Option<Candidate>)
    ensures card == DetectResult(decode, rotated, ocrEnabled, engine, w, h)
  {
    card := Scan1D(decode, ocrEnabled, engine, w, h);
    if card.None? {
      var found := ScanBarcodesOnly(rotated);
      if found != [] {
        var first := found[0];
        card := Some(Candidate(first.text, first.kind, RotateBackPolygon(first.polygon, h)));
      }
    }
  }

  /** `_scan_1d_and_PIN` on a `w` by `h` crop whose lower part the recogniser
      read as `raw`: the barcode of the closed-then-sharp attempts if any,
      else the card number read from the text; and the first 4-digit token. */
  method ScanCardAndPin(decode: Decoder, raw: string, w: int, h: int)
    returns (card: Option<Candidate>, pin: Option<Candidate>)
    ensures var rs := FirstDecoded(BarcodesOnlyOrder, decode);
      card == if rs != [] then Some(ToCandidate(rs[0]))
              else match CardReading(Lines(raw))
                   case Some(c) => Some(Candidate(c, "OCR", FullBox(w, h)))
                   case None => None
    ensures pin == match Seqs.Find(AllTokens(Lines(raw)), IsPinToken)
                   case Some(p) => Some(Candidate(p, "PIN", FullBox(w, h)))
                   case None => None
  {
    var results := decode(Plain(Closed));
    if results == [] {
      results := decode(Plain(Sharp));
    }
    BarcodesOnlyFirst(decode);
    var barcode: Option<Candidate> := None;
    if results != [] {
      barcode := Some(ToCandidate(results[0]));
    }
    var lines := Lines(raw);
    var p := PickPin(lines);
    pin := if p.Some? then Some(Candidate(p.value, "PIN", FullBox(w, h))) else None;
    var c := ExtractCard(lines);
    var ocrCard := if c.Some? then Some(Candidate(c.value, "OCR", FullBox(w, h))) else None;
    card := if barcode.Some? then barcode else ocrCard;
  }
}
