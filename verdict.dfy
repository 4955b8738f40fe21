/** The decision rule `predict_image` applies to the classifier's score. */
module Verdict {

  datatype Verdict = Real | Fake

  /** Scores strictly above this are "Fake". */
  const Threshold: real := 0.5

  /** `"Fake" if prediction[0][0] > 0.5 else "Real"`; the score is the
      classifier's output, supplied by the caller. */
  function Classify(score: real): (v: Verdict)
    ensures v == Real <==> score <= 0.5
  {
    if score > Threshold then Fake else Real
  }

  /** Scores above the threshold are Fake, all others Real; in particular
      exactly 0.5 is Real. */
  lemma ClassifySplitsAtThreshold(score: real)
    ensures Classify(score) == Fake <==> score > 0.5
    ensures Classify(0.5) == Real
  {
  }

  /** Raising a score never turns a Fake verdict into a Real one. */
  lemma ClassifyMonotone(s: real, t: real)
    requires s <= t && Classify(s) == Fake
    ensures Classify(t) == Fake
  {
  }
}
