/**
  * The shop rules: which shops a digit count points to, how a reading is
  * checked and corrected for an explicitly chosen shop, and the 38-to-20
  * trim the live scanner applies to a locked code.
  */
module Shops {
  import opened Text
  import opened Config

  /** The shops of the registry; `Unlisted` stands for any other registry
      name, which falls through to the generic length rule. */
  datatype Shop = REWE | DM | ALDI | LIDL | EDEKA | Unlisted(name: string)

  /** Candidate shops for a digit count, in the order the live lock tests
      the counts. */
  function Classify(n: nat): (r: seq<Shop>)
    ensures REWE in r <==> n == 13
    ensures DM in r <==> n == 24
    ensures EDEKA in r <==> n == 16
    ensures ALDI in r <==> n == 20 || n == 38
    ensures LIDL in r <==> n == 20 || n == 38
    ensures r == [] <==> n != 13 && n != 16 && n != 20 && n != 24 && n != 38
  {
    if n == 13 then [REWE]
    else if n == 24 then [DM]
    else if n == 20 || n == 38 then [ALDI, LIDL]
    else if n == 16 then [EDEKA]
    else []
  }

  /** The one-shot picture path's table, which tests 16 before 20 and 38;
      the counts are disjoint, so it names the same shops as the live lock. */
  function OneShotClassify(n: nat): (r: seq<Shop>)
    ensures r == Classify(n)
  {
    if n == 13 then [REWE]
    else if n == 24 then [DM]
    else if n == 16 then [EDEKA]
    else if n == 20 || n == 38 then [ALDI, LIDL]
    else []
  }

  /** The tri-state outcome of classification. */
  datatype Selection =
    | Auto(shop: Shop)             // exactly one candidate: selected without asking
    | Ambiguous(shops: seq<Shop>)  // several candidates: the user must choose
    | NoMatch(count: nat)          // no candidate for this digit count

  function Select(n: nat): (r: Selection)
    ensures r.Auto? <==> n == 13 || n == 16 || n == 24
    ensures r.Ambiguous? <==> n == 20 || n == 38
    ensures r.Auto? ==> r.shop == (if n == 13 then REWE else if n == 24 then DM else EDEKA)
    ensures r.Ambiguous? ==> r.shops == [ALDI, LIDL]
    ensures r.NoMatch? ==> r.count == n
  {
    var c := Classify(n);
    if |c| == 1 then Auto(c[0])
    else if |c| > 1 then Ambiguous(c)
    else NoMatch(n)
  }

  /** Every shop the classifier names is one of the five registry shops, and
      each appears at most once. */
  lemma ClassifyNamesRegistryShops(n: nat)
    ensures forall i :: 0 <= i < |Classify(n)| ==> !Classify(n)[i].Unlisted?
    ensures forall i, j :: 0 <= i < j < |Classify(n)| ==> Classify(n)[i] != Classify(n)[j]
  {
  }

  /** The digit counts a shop's validation accepts. */
  predicate Accepts(shop: Shop, n: nat) {
    match shop
    case REWE => n == 13
    case DM => n == 24
    case ALDI => n == 20 || n == 38
    case LIDL => n == 20 || n == 38
    case EDEKA => n == 19 || n == 32
    case Unlisted(_) => MinOcrDigits <= n <= MaxOcrDigits
  }

  /** The length a registry shop's code has once corrected. */
  function CanonicalLength(shop: Shop): nat
    requires !shop.Unlisted?
  {
    match shop
    case REWE => 13
    case DM => 24
    case ALDI => 20
    case LIDL => 20
    case EDEKA => 19
  }

  datatype Validation = Validation(ok: bool, corrected: string, count: nat)

  /** `_validate_for`: accepts or rejects a digit string for a chosen shop,
      correcting the two known over-long encodings. */
  function ValidateFor(shop: Shop, ds: string): (r: Validation)
    ensures r.count == |ds|
    ensures r.ok <==> Accepts(shop, |ds|)
    ensures !r.ok ==> r.corrected == ds
    ensures r.ok && !shop.Unlisted? ==> |r.corrected| == CanonicalLength(shop)
    ensures shop.Unlisted? || |ds| == CanonicalLength(shop) ==> r.corrected == ds
    ensures AllDigits(ds) ==> AllDigits(r.corrected)
    ensures (shop == ALDI || shop == LIDL) && |ds| == 38 ==> r.corrected == ds[18..]
    ensures shop == EDEKA && |ds| == 32 ==> r.corrected == ds[11..16] + ds[18..]
  {
    var n := |ds|;
    match shop
    case REWE => Validation(n == 13, ds, n)
    case DM => Validation(n == 24, ds, n)
    case ALDI => ValidatePair(ds)
    case LIDL => ValidatePair(ds)
    case EDEKA =>
      if n == 32 then Validation(true, ds[11..16] + ds[18..], n)
      else Validation(n == 19, ds, n)
    case Unlisted(_) => Validation(MinOcrDigits <= n <= MaxOcrDigits, ds, n)
  }

  /** The rule ALDI and LIDL share. */
  function ValidatePair(ds: string): Validation {
    var n := |ds|;
    if n == 20 then Validation(true, ds, n)
    else if n == 38 then Validation(true, ds[18..], n)
    else Validation(false, ds, n)
  }

  /** A corrected code validates again, unchanged: the correction is a fixed point. */
  lemma ValidateCorrectedIsFixed(shop: Shop, ds: string)
    requires ValidateFor(shop, ds).ok
    ensures ValidateFor(shop, ValidateFor(shop, ds).corrected)
         == Validation(true, ValidateFor(shop, ds).corrected, |ValidateFor(shop, ds).corrected|)
  {
  }

  /** For REWE, DM, ALDI and LIDL the classifier and the validator agree in
      both directions: a shop is proposed for a count exactly when its
      validation accepts that count. */
  lemma ClassifyAgreesWithValidate(shop: Shop, ds: string)
    requires shop == REWE || shop == DM || shop == ALDI || shop == LIDL
    ensures shop in Classify(|ds|) <==> ValidateFor(shop, ds).ok
  {
  }

  /** EDEKA is proposed for 16-digit codes, yet its validation only accepts 19
      or 32 digits: an auto-selected EDEKA code is always rejected, and no code
      EDEKA accepts is ever classified as EDEKA. */
  lemma EdekaClassifyValidateDisagree(ds: string)
    ensures |ds| == 16 ==> Select(|ds|) == Auto(EDEKA) && !ValidateFor(EDEKA, ds).ok
    ensures ValidateFor(EDEKA, ds).ok ==> EDEKA !in Classify(|ds|)
  {
  }

  /** The live scanner's correction of a locked code: a 38-digit reading (a
      doubly encoded 20-digit ALDI/LIDL number) keeps its last 20 digits. */
  function TrimDualEncoding(ds: string): (r: string)
    ensures |r| <= |ds| && r == ds[|ds| - |r|..]
    ensures |ds| == 38 ==> |r| == 20
    ensures |ds| != 38 ==> r == ds
  {
    if |ds| == 38 then ds[18..] else ds
  }

  /** Trimming twice is trimming once; a 20-digit code is left alone. */
  lemma TrimDualEncodingIdempotent(ds: string)
    ensures TrimDualEncoding(TrimDualEncoding(ds)) == TrimDualEncoding(ds)
    ensures |ds| == 20 ==> TrimDualEncoding(ds) == ds
  {
  }

  /** The live trim is the correction ALDI and LIDL apply when validating. */
  lemma TrimMatchesPairCorrection(ds: string)
    requires |ds| == 20 || |ds| == 38
    ensures ValidateFor(ALDI, ds) == ValidateFor(LIDL, ds) == Validation(true, TrimDualEncoding(ds), |ds|)
  {
  }

  /** Classifying before or after the trim gives the same candidates, so the
      live path may classify the untrimmed count. */
  lemma ClassifyIgnoresTrim(ds: string)
    ensures Classify(|TrimDualEncoding(ds)|) == Classify(|ds|)
  {
  }
}
