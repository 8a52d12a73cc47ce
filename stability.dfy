/**
  * The live scanner's debounce state machine: per-cycle tracking of the
  * candidate card text and PIN, the lock once the same text has been seen in
  * `StableThreshold` consecutive cycles, the one-time classification on a
  * new lock, and the restart that clears the tracker.
  */
module Stability {
  import opened Options
  import opened Text
  import opened Config
  import opened Shops
  import opened Geometry
  import opened Ocr
  import opened Cascade

  /** What a scan cycle hands to the tracker: the card's text and symbology. */
  datatype Sighting = Sighting(text: string, kind: string)

  /** The tracker's fields, and the two text fields and the shop selection
      that a lock writes. */
  datatype TrackerState = TrackerState(
    potentialCode: string,
    potentialCodeType: string,
    potentialCodeCount: nat,
    stableCode: string,
    potentialPin: string,
    potentialPinCount: nat,
    stablePin: string,
    codeField: string,
    pinField: string,
    selectedShop: Option<Shop>)

  /** What a cycle shows: nothing tracked, a candidate seen `count` times in a
      row, or a lock exposing `exposed`; `announced` is the classification made
      when the lock is new (shop buttons enabled, beep), absent otherwise. */
  datatype Outcome =
    | Scanning
    | Tracking(count: nat)
    | Locked(exposed: string, pinPromoted: bool, announced: Option<Selection>)

  datatype StepResult = StepResult(outcome: Outcome, next: TrackerState)

  /** The state the scanner starts in. */
  function Initial(): TrackerState {
    TrackerState("", "", 0, "", "", 0, "", "", "", None)
  }

  /** No candidate is being tracked. */
  predicate Fresh(s: TrackerState) {
    s.potentialCode == "" && s.potentialCodeCount == 0
  }

  /** A tracked text and how many consecutive cycles have seen it. */
  datatype Counter = Counter(text: string, count: nat)

  /** The counter rule shared by the card and the PIN: the same text again
      counts up, another text starts over at 1, nothing found clears it. */
  function Observe(c: Counter, seen: Option<string>): Counter {
    match seen
    case None => Counter("", 0)
    case Some(t) => if t == c.text then Counter(t, c.count + 1) else Counter(t, 1)
  }

  function TextOf(card: Option<Sighting>): Option<string> {
    match card
    case Some(c) => Some(c.text)
    case None => None
  }

  /** Steps 1 and 2 of `update_frame`'s stability block: the card and PIN
      counters, and the symbology of a newly seen text. */
  function Track(s: TrackerState, card: Option<Sighting>, pin: Option<string>): (r: TrackerState)
    ensures r.potentialCode == (if card.Some? then card.value.text else "")
    ensures r.potentialCodeCount ==
      if card.None? then 0 else if card.value.text == s.potentialCode then s.potentialCodeCount + 1 else 1
    ensures r.potentialPin == (if pin.Some? then pin.value else "")
    ensures r.potentialPinCount ==
      if pin.None? then 0 else if pin.value == s.potentialPin then s.potentialPinCount + 1 else 1
    ensures r.potentialCodeType ==
      if card.Some? && card.value.text != s.potentialCode then card.value.kind else s.potentialCodeType
    ensures r.stableCode == s.stableCode && r.stablePin == s.stablePin
    ensures r.codeField == s.codeField && r.pinField == s.pinField && r.selectedShop == s.selectedShop
  {
    var code := Observe(Counter(s.potentialCode, s.potentialCodeCount), TextOf(card));
    var codeType := if card.Some? && card.value.text != s.potentialCode then card.value.kind else s.potentialCodeType;
    var pinC := Observe(Counter(s.potentialPin, s.potentialPinCount), pin);
    s.(potentialCode := code.text, potentialCodeType := codeType, potentialCodeCount := code.count,
       potentialPin := pinC.text, potentialPinCount := pinC.count)
  }

  /** Step 3 of `update_frame`'s stability block: the lock check on the
      updated counters. */
  function Settle(t: TrackerState): (r: StepResult)
    ensures r.outcome.Locked? <==> t.potentialCodeCount >= StableThreshold
    ensures !r.outcome.Locked? ==> r.next == t
    ensures r.outcome.Locked? ==>
      && r.next.stableCode == t.potentialCode
      && r.outcome.exposed == r.next.codeField
      && (r.outcome.announced.Some? <==> t.potentialCode != t.stableCode)
    ensures r.next.potentialCode == t.potentialCode && r.next.potentialCodeCount == t.potentialCodeCount
    ensures r.next.potentialPin == t.potentialPin && r.next.potentialPinCount == t.potentialPinCount
    ensures r.next.potentialCodeType == t.potentialCodeType
  {
    if t.potentialCodeCount >= StableThreshold then
      var isNew := t.potentialCode != t.stableCode;
      var digits := DigitsOnly(t.potentialCode);
      var exposed := TrimDualEncoding(digits);
      var promote := t.potentialPinCount >= StableThreshold;
      var selection := Select(|digits|);
      var shop := if isNew && selection.Auto? then Some(selection.shop) else t.selectedShop;
      StepResult(
        Locked(exposed, promote, if isNew then Some(selection) else None),
        t.(stableCode := t.potentialCode, codeField := exposed,
           stablePin := if promote then t.potentialPin else t.stablePin,
           pinField := if promote then t.potentialPin else t.pinField,
           selectedShop := shop))
    else
      StepResult(if t.potentialCodeCount > 0 then Tracking(t.potentialCodeCount) else Scanning, t)
  }

  /** One stability cycle of `update_frame`, given the card found in the
      region of interest (if any) and the PIN found (if any). */
  function Advance(s: TrackerState, card: Option<Sighting>, pin: Option<string>): (r: StepResult)
    ensures card.None? ==> !r.outcome.Locked? && r.next.potentialCode == "" && r.next.potentialCodeCount == 0
    ensures r.outcome.Locked? ==> r.next.stableCode == card.value.text
  {
    Settle(Track(s, card, pin))
  }

  /** The counters follow the counter rule, and a cycle locks exactly when
      the card counter reaches `StableThreshold`. */
  lemma AdvanceCounts(s: TrackerState, card: Option<Sighting>, pin: Option<string>)
    ensures var r := Advance(s, card, pin);
      && (card.None? ==> r.next.potentialCode == "" && r.next.potentialCodeCount == 0)
      && (card.Some? ==> r.next.potentialCode == card.value.text)
      && (card.Some? && card.value.text == s.potentialCode ==> r.next.potentialCodeCount == s.potentialCodeCount + 1)
      && (card.Some? && card.value.text != s.potentialCode ==> r.next.potentialCodeCount == 1)
      && (card.Some? && card.value.text != s.potentialCode ==> r.next.potentialCodeType == card.value.kind)
      && (pin.None? ==> r.next.potentialPin == "" && r.next.potentialPinCount == 0)
      && (pin.Some? ==> r.next.potentialPin == pin.value)
      && (pin.Some? && pin.value == s.potentialPin ==> r.next.potentialPinCount == s.potentialPinCount + 1)
      && (pin.Some? && pin.value != s.potentialPin ==> r.next.potentialPinCount == 1)
      && (r.outcome.Locked? <==> r.next.potentialCodeCount >= StableThreshold)
      && (r.outcome.Tracking? <==> 0 < r.next.potentialCodeCount < StableThreshold)
      && (r.outcome.Tracking? ==> r.outcome.count == r.next.potentialCodeCount)
  {
  }

  /** A lock makes the tracked text stable and exposes its digits, trimmed;
      it announces the classification of the untrimmed digit count exactly
      when the text differs from the previous stable code, and selects the
      shop only when that classification is unambiguous. */
  lemma AdvanceLocks(s: TrackerState, card: Option<Sighting>, pin: Option<string>)
    requires Advance(s, card, pin).outcome.Locked?
    ensures var r := Advance(s, card, pin);
      && card.Some?
      && r.next.stableCode == card.value.text
      && r.outcome.exposed == r.next.codeField == TrimDualEncoding(DigitsOnly(card.value.text))
      && AllDigits(r.outcome.exposed)
      && (r.outcome.announced.Some? <==> card.value.text != s.stableCode)
      && (r.outcome.announced.Some? ==> r.outcome.announced.value == Select(|DigitsOnly(card.value.text)|))
      && (r.next.selectedShop ==
            if r.outcome.announced.Some? && r.outcome.announced.value.Auto?
            then Some(r.outcome.announced.value.shop) else s.selectedShop)
      && (r.outcome.pinPromoted <==> pin.Some? && r.next.potentialPinCount >= StableThreshold)
      && (r.outcome.pinPromoted ==> r.next.stablePin == r.next.pinField == pin.value)
      && (!r.outcome.pinPromoted ==> r.next.stablePin == s.stablePin && r.next.pinField == s.pinField)
  {
  }

  /** Without a lock, the stable code and PIN, the text fields and the shop
      selection are left as they were. */
  lemma AdvanceWithoutLock(s: TrackerState, card: Option<Sighting>, pin: Option<string>)
    requires !Advance(s, card, pin).outcome.Locked?
    ensures var r := Advance(s, card, pin);
      && r.next.stableCode == s.stableCode && r.next.codeField == s.codeField
      && r.next.stablePin == s.stablePin && r.next.pinField == s.pinField
      && r.next.selectedShop == s.selectedShop
  {
  }

  /** `reset_scan`: clears the tracker and the shop selection, but keeps the
      code and PIN already shown in the text fields and the symbology of the
      last text seen, which it does not touch. */
  function Reset(s: TrackerState): (r: TrackerState)
    ensures Fresh(r) && r.potentialPin == "" && r.potentialPinCount == 0
    ensures r.stableCode == "" && r.stablePin == "" && r.selectedShop == None
    ensures r.codeField == s.codeField && r.pinField == s.pinField
    ensures r.potentialCodeType == s.potentialCodeType
  {
    TrackerState("", s.potentialCodeType, 0, "", "", 0, "", s.codeField, s.pinField, None)
  }

  // ---------------------------------------------------------------------
  // Histories of cycles
  // ---------------------------------------------------------------------

  /** What one cycle saw. */
  datatype Frame = Frame(card: Option<Sighting>, pin: Option<string>)

  /** The state after feeding the cycles `fs`, in order, from `s`. */
  function Feed(s: TrackerState, fs: seq<Frame>): TrackerState {
    if fs == [] then s
    else
      var f := fs[|fs| - 1];
      Advance(Feed(s, fs[..|fs| - 1]), f.card, f.pin).next
  }

  /** What the last of the cycles `fs` shows. */
  function LastOutcome(s: TrackerState, fs: seq<Frame>): Outcome
    requires fs != []
  {
    var f := fs[|fs| - 1];
    Advance(Feed(s, fs[..|fs| - 1]), f.card, f.pin).outcome
  }

  /** Whether two cycles saw a card with the same text. */
  predicate SameCard(f: Frame, g: Frame) {
    f.card.Some? && g.card.Some? && f.card.value.text == g.card.value.text
  }

  /** How many of the last cycles of `fs` saw a card with the same text as
      the last one: 0 when the last cycle saw no card. */
  function CardRun(fs: seq<Frame>): (n: nat)
    ensures n <= |fs|
    ensures n > 0 <==> fs != [] && fs[|fs| - 1].card.Some?
  {
    if fs == [] || fs[|fs| - 1].card.None? then 0
    else if |fs| >= 2 && SameCard(fs[|fs| - 2], fs[|fs| - 1]) then CardRun(fs[..|fs| - 1]) + 1
    else 1
  }

  /** From a state that tracks nothing (the initial one, or one just reset),
      the count is the length of the current run of identical card texts and
      the tracked text is that run's text. */
  lemma {:induction false} CountIsRun(s: TrackerState, fs: seq<Frame>)
    requires Fresh(s)
    ensures Feed(s, fs).potentialCodeCount == CardRun(fs)
    ensures CardRun(fs) == 0 ==> Feed(s, fs).potentialCode == ""
    ensures CardRun(fs) > 0 ==> Feed(s, fs).potentialCode == fs[|fs| - 1].card.value.text
  {
    if fs != [] {
      var pre := fs[..|fs| - 1];
      CountIsRun(s, pre);
      if |fs| >= 2 {
        assert pre[|pre| - 1] == fs[|fs| - 2];
      }
    }
  }

  /** A cycle locks exactly when its card text has been seen in at least
      `StableThreshold` consecutive cycles since the tracker was fresh. */
  lemma LocksAfterStableRun(s: TrackerState, fs: seq<Frame>)
    requires Fresh(s) && fs != []
    ensures LastOutcome(s, fs).Locked? <==> CardRun(fs) >= StableThreshold
  {
    CountIsRun(s, fs);
  }

  /** `n` cycles that each see the card `c` and no PIN. */
  function Repeat(c: Sighting, n: nat): (fs: seq<Frame>)
    ensures |fs| == n
    ensures forall i :: 0 <= i < n ==> fs[i] == Frame(Some(c), None)
  {
    seq(n, i => Frame(Some(c), None))
  }

  /** Once the code `c` is locked, seeing it again keeps the lock without a
      second announcement: classification, button enabling and the beep
      happen once per lock. */
  lemma {:induction false} LockAnnouncesOnce(s: TrackerState, c: Sighting, n: nat)
    requires s.stableCode == s.potentialCode == c.text && s.potentialCodeCount >= StableThreshold
    ensures Feed(s, Repeat(c, n)).stableCode == c.text
    ensures Feed(s, Repeat(c, n)).potentialCode == c.text
    ensures Feed(s, Repeat(c, n)).potentialCodeCount == s.potentialCodeCount + n
    ensures Feed(s, Repeat(c, n)).selectedShop == s.selectedShop
    ensures n > 0 ==> LastOutcome(s, Repeat(c, n)).Locked? && LastOutcome(s, Repeat(c, n)).announced.None?
  {
    if n > 0 {
      assert Repeat(c, n)[..n - 1] == Repeat(c, n - 1);
      LockAnnouncesOnce(s, c, n - 1);
    }
  }

  /** With no PIN found (the live scan never reports one), the stable PIN
      and the PIN field never change. */
  lemma {:induction false} LivePinNeverPromoted(s: TrackerState, fs: seq<Frame>)
    requires forall i :: 0 <= i < |fs| ==> fs[i].pin.None?
    ensures Feed(s, fs).stablePin == s.stablePin && Feed(s, fs).pinField == s.pinField
  {
    if fs != [] {
      LivePinNeverPromoted(s, fs[..|fs| - 1]);
    }
  }

  /** Three identical sightings after a restart lock the code and announce
      its classification, even when the same code was locked before. */
  lemma ResetThenRelock(s: TrackerState, c: Sighting)
    requires c.text != ""
    ensures LastOutcome(Reset(s), Repeat(c, StableThreshold)) ==
      Locked(TrimDualEncoding(DigitsOnly(c.text)), false, Some(Select(|DigitsOnly(c.text)|)))
    ensures Feed(Reset(s), Repeat(c, StableThreshold)).selectedShop ==
      if Select(|DigitsOnly(c.text)|).Auto? then Some(Select(|DigitsOnly(c.text)|).shop) else None
  {
    var fs := Repeat(c, StableThreshold);
    var r := Reset(s);
    var s1 := r.(potentialCode := c.text, potentialCodeType := c.kind, potentialCodeCount := 1);
    var s2 := s1.(potentialCodeCount := 2);
    SightingStep(r, c);
    SightingStep(s1, c);
    assert fs[..2][..1] == Repeat(c, 1);
    assert Repeat(c, 1)[..0] == [];
    assert fs[..2] == Repeat(c, 2);
    assert Feed(r, Repeat(c, 1)) == s1;
    assert Feed(r, fs[..2]) == s2;
    SightingStep(s2, c);
  }

  /** A cycle that sees `c` and no PIN from a state with no PIN tracked. */
  lemma SightingStep(s: TrackerState, c: Sighting)
    requires s.potentialPin == "" && s.potentialPinCount == 0
    ensures var t := Track(s, Some(c), None);
      t == s.(potentialCode := c.text,
              potentialCodeType := if c.text != s.potentialCode then c.kind else s.potentialCodeType,
              potentialCodeCount := if c.text == s.potentialCode then s.potentialCodeCount + 1 else 1)
  {
  }

  /** A 13-digit code seen in three consecutive cycles selects REWE on the third. */
  lemma ReweScenario()
    ensures var c := Sighting("4006381333931", "EAN13");
      LastOutcome(Initial(), Repeat(c, 3)) == Locked("4006381333931", false, Some(Auto(REWE)))
      && Feed(Initial(), Repeat(c, 3)).selectedShop == Some(REWE)
  {
    var c := Sighting("4006381333931", "EAN13");
    AllDigitsCode(c.text);
    assert Reset(Initial()) == Initial();
    ResetThenRelock(Initial(), c);
  }

  lemma AllDigitsCode(t: string)
    requires t == "4006381333931"
    ensures DigitsOnly(t) == t && |t| == 13
  {
    assert AllDigits(t);
  }

  /** Every cycle sees a card, and no two consecutive cycles see the same text. */
  predicate Alternating(fs: seq<Frame>) {
    && (forall i :: 0 <= i < |fs| ==> fs[i].card.Some?)
    && forall i :: 0 < i < |fs| ==> !SameCard(fs[i - 1], fs[i])
  }

  /** When the card text changes at every cycle, no cycle ever locks: each
      prefix of the history ends with a run of one. */
  lemma AlternatingNeverLocks(s: TrackerState, fs: seq<Frame>)
    requires Fresh(s) && Alternating(fs)
    ensures forall k :: 0 < k <= |fs| ==> !LastOutcome(s, fs[..k]).Locked?
  {
    forall k | 0 < k <= |fs|
      ensures !LastOutcome(s, fs[..k]).Locked?
    {
      var p := fs[..k];
      assert p[|p| - 1] == fs[k - 1];
      if k >= 2 {
        assert p[|p| - 2] == fs[k - 2];
      }
      assert CardRun(p) == 1;
      LocksAfterStableRun(s, p);
    }
  }

  /** A card whose text is empty (a payload of whitespace only) is tracked
      like any other and locks on the third cycle, but from the initial state
      the lock is not new: nothing is announced and no shop is selected. */
  lemma EmptyTextLocksSilently(kind: string)
    ensures var c := Sighting("", kind);
      && LastOutcome(Initial(), Repeat(c, StableThreshold)) == Locked("", false, None)
      && Feed(Initial(), Repeat(c, StableThreshold)).selectedShop == None
  {
    var c := Sighting("", kind);
    var fs := Repeat(c, StableThreshold);
    var s0 := Initial();
    var s1 := s0.(potentialCodeCount := 1);
    var s2 := s0.(potentialCodeCount := 2);
    assert fs[..2][..1] == Repeat(c, 1);
    assert Repeat(c, 1)[..0] == [];
    assert fs[..2] == Repeat(c, 2);
    assert Feed(s0, Repeat(c, 1)) == s1;
    assert Feed(s0, fs[..2]) == s2;
    assert DigitsOnly("") == "";
  }

  /** `_select_shop`'s toggle: choosing the selected shop again clears the
      selection; choosing another shop selects it. */
  function Toggle(selected: Option<Shop>, name: Shop): (r: Option<Shop>)
    ensures r == Some(name) <==> selected != Some(name)
    ensures r.None? <==> selected == Some(name)
  {
    if selected == Some(name) then None else Some(name)
  }

  // ---------------------------------------------------------------------
  // The tracker object
  // ---------------------------------------------------------------------

  /** The scanner object's tracker fields, updated in place once per cycle. */
  class Tracker {
    var potentialCode: string
    var potentialCodeType: string
    var potentialCodeCount: nat
    var stableCode: string
    var potentialPin: string
    var potentialPinCount: nat
    var stablePin: string
    var codeField: string
    var pinField: string
    var selectedShop: Option<Shop>

    function State(): TrackerState
      reads this
    {
      TrackerState(potentialCode, potentialCodeType, potentialCodeCount, stableCode,
                   potentialPin, potentialPinCount, stablePin, codeField, pinField, selectedShop)
    }

    constructor ()
      ensures State() == Initial()
    {
      potentialCode, potentialCodeType, potentialCodeCount := "", "", 0;
      stableCode := "";
      potentialPin, potentialPinCount, stablePin := "", 0, "";
      codeField, pinField := "", "";
      selectedShop := None;
    }

    /** The stability part of `update_frame`. */
    method Step(card: Option<Sighting>, pin: Option<string>) returns (outcome: Outcome)
      modifies this
      ensures StepResult(outcome, State()) == Advance(old(State()), card, pin)
    {
      UpdateCounters(card, pin);
      outcome := CheckLock();
    }

    /** Steps 1 and 2 (the counters) of `update_frame`'s stability block, in place. */
    method UpdateCounters(card: Option<Sighting>, pin: Option<string>)
      modifies this
      ensures State() == Track(old(State()), card, pin)
    {
      if card.Some? {
        if card.value.text == potentialCode {
          potentialCodeCount := potentialCodeCount + 1;
        } else {
          potentialCode := card.value.text;
          potentialCodeType := card.value.kind;
          potentialCodeCount := 1;
        }
      } else {
        potentialCode := "";
        potentialCodeCount := 0;
      }

      if pin.Some? {
        if pin.value == potentialPin {
          potentialPinCount := potentialPinCount + 1;
        } else {
          potentialPin := pin.value;
          potentialPinCount := 1;
        }
      } else {
        potentialPin := "";
        potentialPinCount := 0;
      }
    }

    /** Step 3 (the lock check) of `update_frame`'s stability block, in place. */
    method CheckLock() returns (outcome: Outcome)
      modifies this
      ensures StepResult(outcome, State()) == Settle(old(State()))
    {
      if potentialCodeCount >= StableThreshold {
        var isNew := potentialCode != stableCode;
        stableCode := potentialCode;
        var digits := DigitsOnly(stableCode);
        var n := |digits|;
        if n == 38 {
          digits := digits[18..];
        }
        codeField := digits;
        var promote := potentialPinCount >= StableThreshold;
        if promote {
          stablePin := potentialPin;
          pinField := stablePin;
        }
        var announced := None;
        if isNew {
          var selection := Select(n);
          if selection.Auto? {
            selectedShop := Some(selection.shop);
          }
          announced := Some(selection);
        }
        outcome := Locked(digits, promote, announced);
      } else if potentialCodeCount > 0 {
        outcome := Tracking(potentialCodeCount);
      } else {
        outcome := Scanning;
      }
    }

    /** `reset_scan`. */
    method ResetScan()
      modifies this
      ensures State() == Reset(old(State()))
    {
      stableCode := "";
      stablePin := "";
      potentialCode := "";
      potentialCodeCount := 0;
      potentialPin := "";
      potentialPinCount := 0;
      selectedShop := None;
    }

    /** `_select_shop`. */
    method SelectShop(name: Shop)
      modifies this
      ensures selectedShop == Toggle(old(selectedShop), name)
      ensures State() == old(State()).(selectedShop := selectedShop)
    {
      if selectedShop == Some(name) {
        selectedShop := None;
      } else {
        selectedShop := Some(name);
      }
    }

    /** One scan cycle of `update_frame` on a `w` by `h` frame: detect in the
        region of interest, feed the tracker (the live scan never finds a PIN)
        and return the outcome and the card's polygon in frame coordinates. */
    method ScanCycle(decode: Decoder, rotated: Decoder, ocrEnabled: bool, engine: OcrEngine, w: nat, h: nat)
      returns (card: Option<Candidate>, outcome: Outcome, box: seq<Point>)
      modifies this
      ensures card == CycleCard(decode, rotated, ocrEnabled, engine, Roi(w, h))
      ensures StepResult(outcome, State()) == Advance(old(State()), SightingOf(card), None)
      ensures box == CycleBox(card, Roi(w, h))
    {
      var roi := Roi(w, h);
      card := DetectInRoi(decode, rotated, ocrEnabled, engine, roi);
      box := BoxInFrame(card, roi);
      outcome := Step(SightingOf(card), None);
    }
  }

  /** The tracker sees a detected card's text and symbology. */
  function SightingOf(card: Option<Candidate>): Option<Sighting> {
    match card
    case Some(c) => Some(Sighting(c.text, c.kind))
    case None => None
  }
}
