/**
 * The risk scorer `BruteForceDetector` (mafia/aimodel.py).
 *
 * The trained model and its decision function are outside the model: the
 * raw anomaly score is a function parameter `rawScore`. What is modelled is
 * how the score range is taken from the model's metadata and how a raw score
 * is clamped into that range, mapped linearly onto [0, 1] and rounded to two
 * decimals.
 */
module Risk {
  import opened Wrappers
  import opened Rounding

  /** The metadata stored next to the trained model. */
  datatype Metadata = Metadata(
    modelVersion: string,
    trainedOn: string,
    featuresUsed: seq<string>,
    scoreRange: Option<(real, real)>)

  /** The score range a detector normalises with; it is fixed once loaded. */
  datatype Detector = Detector(minScore: real, maxScore: real)

  const DefaultMinScore := -0.5
  const DefaultMaxScore := 0.5

  /** The range part of `BruteForceDetector.__init__`: the metadata's range, or (-0.5, 0.5). */
  function LoadDetector(meta: Metadata): Detector {
    match meta.scoreRange
    case Some((lo, hi)) => Detector(lo, hi)
    case None => Detector(DefaultMinScore, DefaultMaxScore)
  }

  /**
   * `max(min(raw, max_score), min_score)`, in that order: never below the
   * minimum, never above the maximum of a well-ordered range, and a raw score
   * inside the range is kept as it is.
   */
  function Clamp(d: Detector, raw: real): (r: real)
    ensures r >= d.minScore
    ensures d.minScore <= d.maxScore ==> r <= d.maxScore
    ensures d.minScore <= raw <= d.maxScore ==> r == raw
  {
    Max(Min(raw, d.maxScore), d.minScore)
  }

  /**
   * `_normalize_minmax`. Equal bounds make the source divide by zero, which
   * is what the precondition excludes.
   */
  function NormalizeMinMax(d: Detector, raw: real): (score: real)
    requires d.minScore != d.maxScore
    ensures d.minScore < d.maxScore ==> 0.0 <= score <= 1.0
    ensures IsCents(score)
  {
    var r := (Clamp(d, raw) - d.minScore) / (d.maxScore - d.minScore);
    assert d.minScore < d.maxScore ==> 0.0 <= Round2(r) <= 1.0 by {
      if d.minScore < d.maxScore {
        UnitQuotient(Clamp(d, raw) - d.minScore, d.maxScore - d.minScore);
        Round2UnitInterval(r);
      }
    }
    Round2(r)
  }

  /**
   * What `_normalize_minmax` yields for any range. Equal bounds make the
   * divisor zero, and what happens then depends on which value the clamp
   * returned. If the raw score equals the bound, `min` and `max` keep their
   * first argument, the model's own numpy float64; numpy divides 0 by 0 to
   * NaN, and NaN survives rounding. Otherwise the clamp returned a bound, a
   * Python float, and Python's float division raises ZeroDivisionError.
   */
  datatype Normalized = Score(value: real) | NotANumber | ZeroDivision

  /** `_normalize_minmax` with the equal-bounds cases made explicit. */
  function Normalize(d: Detector, raw: real): (n: Normalized)
    ensures n.Score? <==> d.minScore != d.maxScore
    ensures n.Score? ==> IsCents(n.value)
    ensures d.minScore < d.maxScore ==> n.Score? && 0.0 <= n.value <= 1.0
  {
    if d.minScore != d.maxScore then Score(NormalizeMinMax(d, raw))
    else if raw == d.minScore then NotANumber
    else ZeroDivision
  }

  /** `predict`: normalise the model's raw score for the two features. */
  function Predict(d: Detector, rawScore: (int, real) -> real, attemptCount: int, avgInterval: real): (n: Normalized)
    ensures n.Score? <==> d.minScore != d.maxScore
    ensures d.minScore < d.maxScore ==> n.Score? && 0.0 <= n.value <= 1.0
  {
    Normalize(d, rawScore(attemptCount, avgInterval))
  }

  lemma UnitQuotient(a: real, b: real)
    requires 0.0 <= a <= b && b > 0.0
    ensures 0.0 <= a / b <= 1.0
  {
    assert a / b * b == a;
  }

  lemma SelfQuotient(w: real)
    requires w != 0.0
    ensures w / w == 1.0
  {
  }

  lemma QuotientMonotone(a: real, c: real, b: real)
    requires a <= c && b > 0.0
    ensures a / b <= c / b
  {
    assert a / b * b == a;
    assert c / b * b == c;
  }

  /** Raw scores at or below the minimum map to 0, at or above the maximum to 1. */
  lemma NormalizeSaturates(d: Detector, raw: real)
    requires d.minScore < d.maxScore
    ensures raw <= d.minScore ==> NormalizeMinMax(d, raw) == 0.0
    ensures raw >= d.maxScore ==> NormalizeMinMax(d, raw) == 1.0
  {
    var w := d.maxScore - d.minScore;
    if raw <= d.minScore {
      assert Clamp(d, raw) - d.minScore == 0.0;
      assert 0.0 / w == 0.0;
      Round2OfCents(0);
    }
    if raw >= d.maxScore {
      assert Clamp(d, raw) - d.minScore == w;
      SelfQuotient(w);
      Round2OfCents(100);
    }
  }

  /** A higher raw score never gives a lower risk score. */
  lemma NormalizeMonotone(d: Detector, raw1: real, raw2: real)
    requires d.minScore < d.maxScore && raw1 <= raw2
    ensures NormalizeMinMax(d, raw1) <= NormalizeMinMax(d, raw2)
  {
    var w := d.maxScore - d.minScore;
    QuotientMonotone(Clamp(d, raw1) - d.minScore, Clamp(d, raw2) - d.minScore, w);
    Round2Monotone((Clamp(d, raw1) - d.minScore) / w, (Clamp(d, raw2) - d.minScore) / w);
  }

  /** Without a score range in the metadata the range is (-0.5, 0.5): a raw 0.0 scores 0.5. */
  lemma DefaultRangeCentresZero(meta: Metadata)
    requires meta.scoreRange.None?
    ensures LoadDetector(meta) == Detector(-0.5, 0.5)
    ensures NormalizeMinMax(LoadDetector(meta), 0.0) == 0.5
  {
    Round2OfCents(50);
  }

  /**
   * With equal bounds no score comes out: a raw score equal to the bound
   * gives NaN, any other raw score raises ZeroDivisionError.
   */
  lemma EqualBoundsNoScore(d: Detector, raw: real)
    requires d.minScore == d.maxScore
    ensures Normalize(d, raw) == NotANumber <==> raw == d.minScore
    ensures Normalize(d, raw) == ZeroDivision <==> raw != d.minScore
  {
  }

  /**
   * The range is never checked: with the bounds inverted every raw score is
   * clamped to the lower bound and the risk score is always 0.
   */
  lemma InvertedRangeScoresZero(d: Detector, raw: real)
    requires d.minScore > d.maxScore
    ensures NormalizeMinMax(d, raw) == 0.0
  {
    assert Clamp(d, raw) == d.minScore;
    assert 0.0 / (d.maxScore - d.minScore) == 0.0;
    Round2OfCents(0);
  }
}
