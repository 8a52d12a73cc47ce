# Voucher scanner: recognition and decision layer

A Dafny model of the decision logic of `voucher-scanner.py`, a desktop tool
that reads gift-card numbers and PINs from a camera image and hands them to
the card-balance forms of five shops (REWE, DM, ALDI, LIDL, EDEKA). The model
covers the part of the program that sits between the image-library calls and
the Tk and Selenium plumbing:

- `Stability` (stability.dfy): the live scanner's debounce state machine.
  - The `Tracker` class holds the fields `update_frame` mutates once per scan
    cycle: the potential code, its symbology and count, the stable code, the
    PIN counterparts, the code and PIN text fields and the selected shop.
  - `Step` is the stability part of a cycle, `ResetScan` is `reset_scan`,
    `SelectShop` is the toggle of `_select_shop`, and `ScanCycle` is a whole
    cycle: detection in the region of interest, then the tracker step.
  - Each method is proved against the pure functions `Track`, `Settle`,
    `Advance` and `Reset`. The lemmas about them cover one cycle and histories
    of cycles (`Feed`): when a lock happens, when it is announced, and what
    survives a reset.
- `Shops` (shops.dfy): the digit-count classifier with its tri-state outcome
  (auto-select, ambiguous, no match), `_validate_for` with its two
  corrections, and the live 38-to-20 trim.
- `Geometry` (geometry.dfy): the region of interest in integer arithmetic,
  the 90-degree back-map of polygons found in the rotated crop, and the
  crop-to-frame offset.
- `Cascade` (cascade.dfy): the barcode decode cascade of `_scan_1d`,
  `_try_multiple_scales`, `_try_rotations` and `_scan_barcodes_only`.
  - It is modelled as an ordered first-success search over an abstract
    decoder: an `Attempt` (a named image variant, possibly scaled or rotated)
    maps to the list of symbols the decoder returns.
  - The loops are methods proved equal to the search over the listed order.
  - It also holds the detection step of a cycle and `_scan_1d_and_PIN`.
- `Ocr` (ocr.dfy): the text post-processing.
  - `run_ocr`'s line filter and first-longest pick.
  - The OCR fallback over the eight image transforms, each read by an
    abstract recogniser.
  - The PIN pick and the card-number extraction of `_scan_1d_and_PIN`.
- `Text` (text.dfy) and `Seqs` (seqs.dfy) restate the Python string and list
  primitives the program uses: `isdigit`, `isspace`, `strip`, `split()`,
  `splitlines`, `max(key=len)`, comprehension filters and first-match loops.
  `Config` (config.dfy) holds the constants; `Options` (options.dfy) the
  option type.

The model follows these facts about the code:

- The first pass visits gray, sharp, closed, enhanced, binary, inverted
  binary, adaptive, the order the candidate list is built in
  (voucher-scanner.py:1283-1300).
- The scaling pass visits its three variants in candidate-list order, not in
  the order `best_for_scaling` lists them (voucher-scanner.py:1312).
- The PIN is promoted only inside the code-lock branch.
- The live classifier uses the digit count taken before the 38-to-20 trim.
- A 16-digit code is classified as EDEKA although EDEKA's validation accepts
  only 19 or 32 digits. `Shops.EdekaClassifyValidateDisagree` states this
  mismatch; it is kept as written.

## Model

| member | source | states |
|---|---|---|
| Text.DigitsOnly | voucher-scanner.py:2073 | the digits of a string, in order: no longer than the input, all digits, and the input itself when it is already all digits |
| Text.Strip | voucher-scanner.py:1307 | `strip()` yields a contiguous slice of the input with only whitespace before and after it in the input, itself starting and ending with no whitespace; a string with no whitespace at its ends is left unchanged |
| Text.Tokens | voucher-scanner.py:1446 | `split()` yields non-empty tokens free of whitespace |
| Text.TokensAtSpace | voucher-scanner.py:1446 | `split()` at a whitespace character tokenises the text before it and the text after it separately and concatenates the two |
| Text.TokensOfSpace | voucher-scanner.py:1446 | a text of whitespace only has no tokens |
| Text.TokensOfToken | voucher-scanner.py:1446 | a non-empty text without whitespace is exactly one token, itself |
| Text.SplitLines | voucher-scanner.py:1365 | `splitlines()` of the empty text has no lines, and the lines hold no line break |
| Text.SplitLinesAtBreak | voucher-scanner.py:1365 | the text up to the first line break is the first line and the lines after the break follow it; a non-empty text without breaks is one line |
| Text.LongestIndex | voucher-scanner.py:1369 | `max(xs, key=len)` picks an element at least as long as every other and strictly longer than every earlier one (the first longest) |
| Seqs.FirstSomeAt | voucher-scanner.py:1375-1384 | a loop that stops at the first success returns the value at the first index that yields one |
| Seqs.FirstPresent | voucher-scanner.py:1375-1384 | the try-in-order loop with `break` returns the first present value (the first-success search) |
| Geometry.Roi | voucher-scanner.py:1915-1920 | the region lies inside the frame; its width and height are the floors of 90% and 35% of the frame's; it is centred with at most one pixel more slack on the right or bottom |
| Geometry.RoiNonEmpty | voucher-scanner.py:1915-1920 | frames at least 2 wide and 3 high give a non-empty region |
| Geometry.RotateBack | voucher-scanner.py:2028 | the back-map of a point of the rotated crop is the point the clockwise rotation sends there |
| Geometry.RotateBackInverts | voucher-scanner.py:2022-2028 | the back-map `(x, y) -> (y, W-1-x)` and the clockwise rotation undo each other |
| Geometry.RotateBackInImage | voucher-scanner.py:2028 | a pixel of the rotated crop maps back to a pixel of the original crop |
| Geometry.RotateBackPolygon | voucher-scanner.py:2028 | the back-map applied to every vertex, keeping the vertex count |
| Geometry.OffsetPolygon | voucher-scanner.py:2045-2046 | every vertex moved by `+x0`, `+y0`, keeping the vertex count |
| Geometry.CropPolygonInFrame | voucher-scanner.py:2045-2046 | a polygon inside the crop lands inside the region and the frame once offset |
| Geometry.RotatedPolygonInFrame | voucher-scanner.py:2022-2046 | a polygon inside the rotated crop, mapped back and offset, lands inside the region |
| Shops.Classify | voucher-scanner.py:2095-2103 | the live lock's table: REWE iff 13 digits, DM iff 24, EDEKA iff 16, ALDI and LIDL iff 20 or 38, and no candidate for every other count |
| Shops.OneShotClassify | voucher-scanner.py:1028-1039 | the picture path's count table names the same shops as the live lock's table for every count |
| Shops.Select | voucher-scanner.py:2095-2103 | 13, 16 and 24 auto-select REWE, EDEKA and DM; 20 and 38 are ambiguous between ALDI and LIDL; every other count is no match |
| Shops.ClassifyNamesRegistryShops | voucher-scanner.py:2095-2103 | the classifier only names registry shops, each at most once |
| Shops.ValidateFor | voucher-scanner.py:753-772 | the count is the input's length; acceptance holds iff the count is one the shop takes; rejected input is returned unchanged; accepted registry-shop codes are corrected to the shop's canonical length: a 38-digit ALDI or LIDL code to its last 20 digits, a 32-digit EDEKA code to digits 11-15 followed by digits 18 onward; a code already of canonical length, or for a shop outside the five, is unchanged; digit strings stay digit strings |
| Shops.ValidateCorrectedIsFixed | voucher-scanner.py:753-772 | a corrected code validates again, unchanged |
| Shops.ClassifyAgreesWithValidate | voucher-scanner.py:753-772 | for REWE, DM, ALDI and LIDL the classifier proposes a shop iff its validation accepts the count |
| Shops.EdekaClassifyValidateDisagree | voucher-scanner.py:766-770 | a 16-digit code auto-selects EDEKA but fails EDEKA's validation, and no code EDEKA accepts is classified as EDEKA |
| Shops.TrimDualEncoding | voucher-scanner.py:2076-2078 | the trimmed code is a suffix of the digits: 20 long when there were 38, the digits themselves otherwise |
| Shops.TrimDualEncodingIdempotent | voucher-scanner.py:2076-2078 | trimming twice is trimming once, and a 20-digit code is a fixed point |
| Shops.TrimMatchesPairCorrection | voucher-scanner.py:760-764 | the live trim is the correction ALDI and LIDL validation applies |
| Shops.ClassifyIgnoresTrim | voucher-scanner.py:2095-2100 | classifying the trimmed or the untrimmed count gives the same candidates |
| Ocr.Lines | voucher-scanner.py:1439 | the kept lines are non-empty and stripped |
| Ocr.LinesKept | voucher-scanner.py:1439 | the kept lines are, in order, the stripped lines of the text that are not empty: each kept line is the stripped form of a line of the text, and each line that is not blank is kept |
| Ocr.StrippedLinesKept | voucher-scanner.py:1439 | stripping then dropping the empty lines is the comprehension's filter over the stripped lines, in order |
| Ocr.Readings | voucher-scanner.py:1366-1367 | every kept run is an in-range digit run of some line, and every line's in-range run is kept |
| Ocr.ReadingsKept | voucher-scanner.py:1366-1367 | the kept runs are exactly the lines' digit runs of 10 to 24 digits, in line order |
| Ocr.FirstLongestKept | voucher-scanner.py:1369 | the element `max(key=len)` picks from a filtered list is, in the unfiltered list, a kept element with every earlier kept element strictly shorter |
| Ocr.LongestReadingIsFirst | voucher-scanner.py:1366-1370 | the picked reading is the digit run of some line, no in-range run is longer, and every in-range run on an earlier line is strictly shorter |
| Ocr.RunOcr | voucher-scanner.py:1361-1370 | no reading iff no line has a 10-to-24-digit run; otherwise the first longest: the in-range digit run of some line, at least as long as every other such run, with every in-range run on an earlier line strictly shorter |
| Ocr.LongestReading | voucher-scanner.py:1366-1370 | the same, stated on the list of stripped lines |
| Ocr.TransformReadings | voucher-scanner.py:1375-1384 | one reading per transform, in the listed order |
| Ocr.OcrFallbackFirst | voucher-scanner.py:1375-1384 | the first transform, in order, that yields a reading decides the fallback's result |
| Ocr.OcrFallback | voucher-scanner.py:1373-1384 | no reading iff every transform yields none; a reading is an in-range digit string |
| Ocr.FindInPrefix | voucher-scanner.py:1444-1450 | a PIN found among the first lines is the first PIN of the whole text |
| Ocr.PickPin | voucher-scanner.py:1444-1450 | the per-line loop returns the first 4-digit token of the whole text, in reading order |
| Ocr.NumericLines | voucher-scanner.py:1466-1470 | the kept digit runs are non-empty digit strings |
| Ocr.NumericLinesKept | voucher-scanner.py:1466-1470 | the kept digit runs are exactly the lines' non-empty digit runs, in line order |
| Ocr.Concat | voucher-scanner.py:1472 | joining no strings gives the empty string and joining one gives that string; joining digit strings yields a digit string (with `ConcatAppend`, this fixes the join on every list) |
| Ocr.ConcatAppend | voucher-scanner.py:1472 | joining distributes over concatenation of the lists |
| Ocr.JoinedDigits | voucher-scanner.py:1466-1472 | joining the lines' non-empty digit runs gives the digits of the joined lines, in order |
| Ocr.CardCandidates | voucher-scanner.py:1457-1474 | every candidate is a digit string of at least 10 digits; without a long digit token there is at most one candidate |
| Ocr.CardReading | voucher-scanner.py:1457-1479 | a reading exists iff there is a candidate; it is a candidate, a digit string of at least 10 digits, and no candidate is longer |
| Ocr.CardReadingShape | voucher-scanner.py:1457-1479 | a reading is a digit string of 10 or more digits; with a long digit token it is the first longest such token (no long token is longer, and every earlier one is strictly shorter); without one, a reading exists iff two or more lines' digit runs join to 10 to 24 digits, and it is that join |
| Ocr.ExtractCard | voucher-scanner.py:1457-1479 | the candidate-building loops compute the card reading |
| Ocr.LongTokens | voucher-scanner.py:1457-1462 | the first loop collects, line by line, exactly the digit tokens of at least 10 digits of the whole text, in reading order |
| Ocr.DigitLines | voucher-scanner.py:1466-1470 | the second loop collects the lines' non-empty digit runs |
| Ocr.FilterTwice | voucher-scanner.py:1460-1461 | keeping the digit tokens, then the long ones, keeps the long digit tokens |
| Cascade.ToCandidate | voucher-scanner.py:1305-1309 | a decoded symbol's candidate is its payload stripped, with the symbol's own symbology and polygon |
| Cascade.FirstDecoded | voucher-scanner.py:1303-1309 | the search yields nothing iff every attempt decodes nothing |
| Cascade.FirstDecodedAt | voucher-scanner.py:1303-1309 | the search returns the results of the first attempt that decodes anything |
| Cascade.FirstDecodedAppend | voucher-scanner.py:1303-1331 | searching consecutive passes searches a later pass only when the earlier ones found nothing |
| Cascade.FirstDecodedIgnoresLater | voucher-scanner.py:1303-1309 | short circuit: attempts after the first success do not affect the result |
| Cascade.ScaleRow | voucher-scanner.py:2247-2253 | one attempt per scale 80, 100, 120, 150, 200 percent, in order |
| Cascade.RotationRow | voucher-scanner.py:2258-2277 | one attempt per angle 0, 90, 180, 270 degrees, in order |
| Cascade.PlainPassListing | voucher-scanner.py:1282-1309 | the first pass tries gray, sharp, closed, enhanced, binary, inverted binary, adaptive |
| Cascade.ScalePassListing | voucher-scanner.py:1312-1320 | the scaling pass tries sharp, closed, binary (candidate-list order) at every scale |
| Cascade.RotationPassListing | voucher-scanner.py:1323-1331 | the rotation pass tries binary, then inverted binary, at every angle |
| Cascade.CascadeOrderShape | voucher-scanner.py:1303-1331 | the full order has 7 + 15 + 8 attempts; the scaling pass starts at attempt 7 and the rotation pass at attempt 22 |
| Cascade.TryMultipleScales | voucher-scanner.py:2245-2254 | the scale loop returns the results of the first scale that decodes anything |
| Cascade.TryRotations | voucher-scanner.py:2256-2279 | the angle loop returns the results of the first angle that decodes anything |
| Cascade.Scan1DResult | voucher-scanner.py:1259-1391 | the card text is stripped; on a barcode hit the card is the first result of the first successful attempt, with its payload stripped and its symbology and polygon; without a hit and with OCR on, a card exists iff the fallback reads something, and it is that reading, of kind OCR, boxed by the whole crop; with OCR off, no card iff every attempt fails |
| Cascade.ScanOutcome | voucher-scanner.py:1305-1391 | the same card, stated on the cascade's results |
| Cascade.PlainScan | voucher-scanner.py:1303-1309 | the first loop returns the first-success search over the first pass |
| Cascade.ScaleScan | voucher-scanner.py:1312-1320 | the second loop returns the first-success search over the scaling pass |
| Cascade.RotationScan | voucher-scanner.py:1323-1331 | the third loop returns the first-success search over the rotation pass |
| Cascade.OcrScan | voucher-scanner.py:1373-1384 | the transform loop returns the OCR fallback's reading |
| Cascade.Scan1D | voucher-scanner.py:1259-1391 | the three loops and the OCR fallback compute `_scan_1d`'s card |
| Cascade.BarcodesOnlyFirst | voucher-scanner.py:2231-2235 | the rotated-crop scan takes closed's results, or sharp's when closed decodes nothing |
| Cascade.ToCandidates | voucher-scanner.py:2237-2241 | the loop turns every result, in order, into its candidate |
| Cascade.ScanBarcodesOnly | voucher-scanner.py:2219-2243 | every result of that attempt, in order, each with its text stripped |
| Cascade.DetectResult | voucher-scanner.py:2016-2029 | `_scan_1d`'s card when it finds one; otherwise the first closed-then-sharp result of the rotated crop, with its payload stripped, its symbology and its polygon mapped back into the crop; no card iff both find nothing |
| Cascade.DetectFallbackOnly | voucher-scanner.py:2016-2029 | the rotated crop is used only when the direct scan finds nothing; it then yields a card iff its scan decodes anything, with the polygon back inside the crop |
| Cascade.Detect | voucher-scanner.py:2016-2029 | the direct scan followed by the rotated fallback computes the cycle's card |
| Cascade.DetectInRoi | voucher-scanner.py:2014-2029 | detection runs on the crop of the region of interest |
| Cascade.BoxInFrame | voucher-scanner.py:2043-2053 | the drawn box is the card's polygon offset into the frame, or nothing without a card |
| Cascade.ScanCardAndPin | voucher-scanner.py:1393-1486 | the card is the closed-then-sharp barcode if any, else the text's card reading; the PIN is the text's first 4-digit token; OCR results span the whole crop |
| Stability.Track | voucher-scanner.py:2034-2065 | the card counter counts up on the same text, restarts at 1 on another text and clears without a card; the symbology is the card's on a new text and is kept otherwise; the PIN counter follows the same rule; nothing else of the tracker changes |
| Stability.Settle | voucher-scanner.py:2067-2170 | a cycle locks iff the count reached 3; a lock makes the counted text stable, exposes the code field, and announces iff the text differs from the previous stable code; without a lock nothing changes; the counters and the symbology are kept either way |
| Stability.Advance | voucher-scanner.py:2034-2170 | a cycle without a card never locks and clears the card counter; a lock makes the cycle's card text the stable code |
| Stability.AdvanceCounts | voucher-scanner.py:2034-2070 | the same text counts up, another text restarts at 1 with its symbology, no card clears the counter; the PIN counter follows the same rule; a cycle locks iff the count reaches 3; otherwise it reports tracking while the count is positive |
| Stability.AdvanceLocks | voucher-scanner.py:2068-2112 | a lock makes the card's text stable and exposes its trimmed digits in the code field; it announces the classification of the untrimmed count iff the text differs from the previous stable code; it selects the shop only on an unambiguous announcement; it promotes the PIN iff the PIN count also reached 3 |
| Stability.AdvanceWithoutLock | voucher-scanner.py:2158-2170 | without a lock the stable values, the text fields and the shop selection are unchanged |
| Stability.Reset | voucher-scanner.py:2182-2211 | `reset_scan` clears the counters, the potential and stable texts and the shop selection, but keeps the code and PIN fields and the last symbology seen |
| Stability.CountIsRun | voucher-scanner.py:2034-2051 | from a fresh tracker, the count is the length of the current run of identical card texts |
| Stability.LocksAfterStableRun | voucher-scanner.py:2034-2070 | a cycle locks iff its text has been seen in at least 3 consecutive cycles |
| Stability.LockAnnouncesOnce | voucher-scanner.py:2068-2092 | re-observing the locked text keeps the lock, counts up and never announces again or changes the selection |
| Stability.LivePinNeverPromoted | voucher-scanner.py:2058-2086 | with no PIN ever found, the stable PIN and the PIN field never change |
| Stability.ResetThenRelock | voucher-scanner.py:2188-2195 | after a reset, three sightings of a non-empty text lock it and announce it again, even when the same text was locked before |
| Stability.ReweScenario | voucher-scanner.py:2095-2103 | a 13-digit code seen three times in a row selects REWE on the third cycle |
| Stability.AlternatingNeverLocks | voucher-scanner.py:2034-2070 | from a fresh tracker, a history in which every cycle sees a card whose text differs from the previous cycle's never locks at any cycle |
| Stability.EmptyTextLocksSilently | voucher-scanner.py:2034-2092 | a card whose text strips to nothing, seen three times from the initial tracker, locks on the third cycle with an empty code, announces nothing and selects no shop, since the empty text equals the initial stable code |
| Stability.Toggle | voucher-scanner.py:643-656 | choosing the selected shop again clears the selection; choosing another shop selects it |
| Stability.Tracker.constructor | voucher-scanner.py:613-619 | the tracker starts empty, with nothing selected |
| Stability.Tracker.Step | voucher-scanner.py:2033-2170 | one stability cycle moves the fields from the old state to `Advance` of it |
| Stability.Tracker.UpdateCounters | voucher-scanner.py:2033-2065 | the counter updates, in place |
| Stability.Tracker.CheckLock | voucher-scanner.py:2067-2170 | the lock check, in place |
| Stability.Tracker.ResetScan | voucher-scanner.py:2182-2211 | `reset_scan`, in place |
| Stability.Tracker.SelectShop | voucher-scanner.py:632-668 | the selection toggles and nothing else changes |
| Stability.Tracker.ScanCycle | voucher-scanner.py:2005-2053 | a cycle detects in the region of interest, feeds the card to the tracker with no PIN, and returns the box in frame coordinates |

## Left out

- Selenium, browser automation, captcha waiting, tabs, iframes and typing simulation: network and browser I/O.
- Tk widgets, button styles and enabling, status texts, `last_label`, the overlay and box drawing, `beep`: UI side effects only.
  - The model returns an `Outcome` where the program writes status text.
- Camera capture and the scheduling of cycles: device I/O and timing.
  - Not modelled: `update_live_video`, `_take_picture`, `_reset_camera`, `root.after` and the `time.time()` cadence check.
  - `ScanCycle` is one cycle that has passed the cadence check.
- The OpenCV transforms, the pyzbar decoder and tesseract are foreign image and ML code. They are parameters of the model:
  - a decoder per crop;
  - a recogniser from transform to raw text, with `None` when the transform or the recogniser raised.
- Cascade.OcrScan: the readings of the eight transforms are taken as a sequence computed up front. The recogniser is a pure function, so calling it lazily, as the loop does, gives the same first reading.
- Threading: concurrency.
- `_scan_1d_old` (voucher-scanner.py:1166): dead code, never called.
- `_scan_1d_and_PIN` (voucher-scanner.py:1393): no code path calls it either. It is modelled (`Cascade.ScanCardAndPin`) because it holds the PIN pick and the card joining; the live cycle never sees a PIN, which `Stability.LivePinNeverPromoted` states.
- `_process_frozen_frame` is not modelled beyond its classifier table (`Shops.OneShotClassify`) and its detection step (`Cascade.Detect`). Its UI updates are left out. Unlike the live lock, it writes the raw decoded text to the code field, without digit extraction or trim.
- The `SHOPS` table's URLs and selectors, and environment loading.
- Geometry.Roi: computes `int(h * 0.35)` and `int(w * 0.90)` as exact rationals, floor(35h/100) and floor(90w/100). IEEE doubles can differ by one pixel: `int(720 * 0.35)` is 251 in Python, while the exact value is 252.
- Text.IsDigit: accepts ASCII digits only, where Python's `isdigit` also accepts other Unicode digits. The model assumes the texts hold none. The recogniser is whitelisted to 0-9, but a QR or PDF417 payload may carry any text; its non-ASCII digits would be kept by the program and dropped by the model.
- Text.SplitLines: splits "\r\n" into two lines, the second empty. Every caller drops empty lines, so the kept lines are the same.
- A decoded symbol whose polygon is empty makes the program's rotated back-map raise an IndexError. The model maps the empty polygon to an empty one instead.
- Stability.Tracker: its fields stand for the `StringVar` text fields and `selected_shop`. `selected_shop_button` and the button styles are left out.
