/** The scanner's tuning constants (voucher-scanner.py, lines 246-259). */
module Config {

  /** Fewest and most digits an OCR reading or an unlisted shop's code may have. */
  const MinOcrDigits: nat := 10
  const MaxOcrDigits: nat := 24

  /** Length of a PIN token. */
  const PinDigits: nat := 4

  /** The region of interest covers 35% of the frame height and 90% of its
      width; the fractions are kept as exact percentages. */
  const RoiHeightPercent: nat := 35
  const RoiWidthPercent: nat := 90

  /** Consecutive identical detections needed to lock a code. */
  const StableThreshold: nat := 3
}
