/**
 * The verdict `get_status` (gpro/backend/app.py) computes when a test with
 * stored scans completes: a strict comparison of the average against the
 * threshold of the configured classification type.
 */
module Classifier {
  const FRESH_ROTTEN := "fresh_rotten"
  const SOFT_HARD := "soft_hard"

  const ROTTEN := "Rotten"
  const FRESH := "Fresh"
  const HARD := "Hard"
  const SOFT := "Soft"
  const UNKNOWN_TYPE := "Unknown Classification Type"
  /** The result recorded when a test completes with no scan stored. */
  const NO_RESULT := "No Result"

  /** The verdict for an average; an unrecognised type is a sentinel label, not an error. */
  function Classify(kind: string, softThreshold: int, freshThreshold: int, average: real): (verdict: string)
    ensures kind == FRESH_ROTTEN ==> verdict == ROTTEN || verdict == FRESH
    ensures kind == SOFT_HARD ==> verdict == HARD || verdict == SOFT
    ensures kind != FRESH_ROTTEN && kind != SOFT_HARD ==> verdict == UNKNOWN_TYPE
    ensures kind == FRESH_ROTTEN ==> (verdict == ROTTEN <==> average > freshThreshold as real)
    ensures kind == SOFT_HARD ==> (verdict == HARD <==> average > softThreshold as real)
  {
    if kind == FRESH_ROTTEN then
      if average > freshThreshold as real then ROTTEN else FRESH
    else if kind == SOFT_HARD then
      if average > softThreshold as real then HARD else SOFT
    else UNKNOWN_TYPE
  }

  /**
   * The same decision taken on the integer-threshold side, without dividing:
   * the sum of the readings against threshold times their count.
   */
  function ClassifyTotal(kind: string, softThreshold: int, freshThreshold: int, sum: real, count: nat): string {
    if kind == FRESH_ROTTEN then
      if sum > (freshThreshold * count) as real then ROTTEN else FRESH
    else if kind == SOFT_HARD then
      if sum > (softThreshold * count) as real then HARD else SOFT
    else UNKNOWN_TYPE
  }

  /** For a positive count, the mean exceeds a threshold exactly when the sum exceeds threshold times count. */
  lemma MeanAbove(sum: real, count: nat, threshold: int)
    requires count > 0
    ensures sum / (count as real) > threshold as real <==> sum > (threshold * count) as real
  {
  }

  /** Classifying the mean and classifying the totals agree on every input with a reading. */
  lemma ClassifyMeanByTotals(kind: string, softThreshold: int, freshThreshold: int, sum: real, count: nat)
    requires count > 0
    ensures Classify(kind, softThreshold, freshThreshold, sum / (count as real))
         == ClassifyTotal(kind, softThreshold, freshThreshold, sum, count)
  {
    MeanAbove(sum, count, freshThreshold);
    MeanAbove(sum, count, softThreshold);
  }

  /** An average equal to the threshold gives the lower label. */
  lemma TiesGoLow(softThreshold: int, freshThreshold: int)
    ensures Classify(FRESH_ROTTEN, softThreshold, freshThreshold, freshThreshold as real) == FRESH
    ensures Classify(SOFT_HARD, softThreshold, freshThreshold, softThreshold as real) == SOFT
  {
  }

  /** Raising the average never turns Rotten into Fresh or Hard into Soft. */
  lemma ClassifyMonotone(kind: string, softThreshold: int, freshThreshold: int, lower: real, higher: real)
    requires lower <= higher
    ensures Classify(kind, softThreshold, freshThreshold, lower) == ROTTEN
        ==> Classify(kind, softThreshold, freshThreshold, higher) == ROTTEN
    ensures Classify(kind, softThreshold, freshThreshold, lower) == HARD
        ==> Classify(kind, softThreshold, freshThreshold, higher) == HARD
  {
  }
}
