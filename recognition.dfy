/**
  The decision logic of the ASL "G" versus "U" recognizer.

  An uploaded hand image is reduced (by image-processing calls that are not
  part of this model) to the angle, in degrees, of the principal axis of the
  hand's largest contour. That angle is folded into [0, 180) because an axis
  has no direction, and the folded angle is mapped to a letter by fixed
  threshold bands with strict comparisons.

  Angles are exact `real`s, not floating-point numbers.
*/
module Recognition {
  import opened Wrappers

  /** The three labels the classifier can produce. */
  datatype Letter = G | U | Unknown

  /** The string the recognizer returns for each label. */
  function LetterText(l: Letter): (s: string)
    ensures s in {"G", "U", "unknown"}
  {
    match l
    case G => "G"
    case U => "U"
    case Unknown => "unknown"
  }

  /** Two different labels are never rendered as the same string. */
  lemma LetterTextInjective(l1: Letter, l2: Letter)
    ensures LetterText(l1) == LetterText(l2) <==> l1 == l2
  {
  }

  // ---------------------------------------------------------------------------
  // Threshold bands
  // ---------------------------------------------------------------------------

  /** Lower and upper cut-offs of the band read as a near-horizontal axis. */
  const GLow: real := 25.0
  const GHigh: real := 155.0
  /** Open interval read as a near-vertical axis. */
  const ULow: real := 65.0
  const UHigh: real := 115.0

  /** The angle is strictly below 25 or strictly above 155 degrees. */
  predicate InGBand(a: real) { a < GLow || a > GHigh }

  /** The angle lies strictly between 65 and 115 degrees. */
  predicate InUBand(a: real) { ULow < a < UHigh }

  /** The two closed gaps that belong to neither band. */
  predicate InGap(a: real) { GLow <= a <= ULow || UHigh <= a <= GHigh }

  /**
    The letter rule: an absent angle is unknown; otherwise the G band is
    tested first, then the U band, and anything else is unknown.

    Each label is produced exactly on its own region, in both directions:
    the result is characterised by the bands alone, without reference to
    the order in which they are tested.
  */
  function Classify(angle: Option<real>): (r: Letter)
    ensures r == G <==> angle.Some? && InGBand(angle.value)
    ensures r == U <==> angle.Some? && InUBand(angle.value)
    ensures r == Unknown <==> angle.None? || InGap(angle.value)
  {
    match angle
    case None => Unknown
    case Some(a) =>
      if a < GLow || a > GHigh then G
      else if ULow < a < UHigh then U
      else Unknown
  }

  /** The same comparisons tested in the opposite order (U band first). */
  function ClassifyUFirst(angle: Option<real>): Letter
  {
    match angle
    case None => Unknown
    case Some(a) =>
      if ULow < a < UHigh then U
      else if a < GLow || a > GHigh then G
      else Unknown
  }

  /** An absent angle always yields "unknown". */
  lemma AbsentIsUnknown()
    ensures Classify(None) == Unknown
    ensures LetterText(Classify(None)) == "unknown"
  {
  }

  /** Every angle strictly below 25 degrees yields "G". */
  lemma BelowLowIsG(a: real)
    requires a < 25.0
    ensures Classify(Some(a)) == G
  {
  }

  /** Every angle strictly above 155 degrees yields "G". */
  lemma AboveHighIsG(a: real)
    requires a > 155.0
    ensures Classify(Some(a)) == G
  {
  }

  /** Every angle strictly between 65 and 115 degrees yields "U". */
  lemma BetweenIsU(a: real)
    requires 65.0 < a < 115.0
    ensures Classify(Some(a)) == U
  {
  }

  /** The four cut-off values themselves are not in either band. */
  lemma BoundariesAreUnknown()
    ensures Classify(Some(25.0)) == Unknown
    ensures Classify(Some(65.0)) == Unknown
    ensures Classify(Some(115.0)) == Unknown
    ensures Classify(Some(155.0)) == Unknown
  {
  }

  /** Every angle in [25, 65] or in [115, 155] yields "unknown". */
  lemma GapsAreUnknown(a: real)
    requires InGap(a)
    ensures Classify(Some(a)) == Unknown
  {
  }

  /** No angle is in both the G band and the U band. */
  lemma BandsDisjoint(a: real)
    ensures !(InGBand(a) && InUBand(a))
  {
  }

  /** Every angle lies in exactly one of the G band, the U band and the gaps. */
  lemma BandsPartitionReals(a: real)
    ensures InGBand(a) || InUBand(a) || InGap(a)
    ensures !(InGBand(a) && InUBand(a))
    ensures !(InGBand(a) && InGap(a)) && !(InUBand(a) && InGap(a))
  {
    BandsDisjoint(a);
  }

  /** Because the bands are disjoint, swapping the two tests changes nothing. */
  lemma TestOrderIrrelevant(angle: Option<real>)
    ensures Classify(angle) == ClassifyUFirst(angle)
  {
    if angle.Some? {
      BandsDisjoint(angle.value);
    }
  }

  /**
    The rule itself gives "G" at exactly 180 degrees (180 > 155); this value
    is never reached from the recognizer, whose angles are folded below 180.
  */
  lemma FullTurnIsG()
    ensures Classify(Some(180.0)) == G
  {
  }

  // ---------------------------------------------------------------------------
  // Folding the axis angle into [0, 180)
  // ---------------------------------------------------------------------------

  /** The floor of a real is the one integer k with k <= x < k + 1. */
  lemma FloorUnique(x: real, k: int)
    requires k as real <= x < k as real + 1.0
    ensures x.Floor == k
  {
  }

  /**
    The remainder of `a` modulo 180 with the sign of the divisor, as Python's
    `%` computes it on exact numbers: a - 180 * floor(a / 180).
  */
  function Normalize(a: real): (r: real)
    ensures 0.0 <= r < 180.0
  {
    a - 180.0 * (a / 180.0).Floor as real
  }

  /** The angle of `k` half turns, in degrees. */
  function HalfTurns(k: int): real
  {
    180.0 * k as real
  }

  /** `Normalize` changes its input by a whole number of half turns only. */
  lemma NormalizeCongruent(a: real)
    ensures exists k: int :: a == Normalize(a) + HalfTurns(k)
  {
    assert a == Normalize(a) + HalfTurns((a / 180.0).Floor);
  }

  /**
    `Normalize` gives the unique representative in [0, 180): any r in that
    range that differs from `a` by a whole number of half turns is it.
  */
  lemma NormalizeUnique(a: real, r: real, k: int)
    requires 0.0 <= r < 180.0
    requires a == r + HalfTurns(k)
    ensures Normalize(a) == r
  {
    assert a / 180.0 == r / 180.0 + k as real;
    FloorUnique(a / 180.0, k);
  }

  /** Angles already in [0, 180) are left as they are. */
  lemma NormalizeFixesRange(a: real)
    requires 0.0 <= a < 180.0
    ensures Normalize(a) == a
  {
    NormalizeUnique(a, a, 0);
  }

  /** Every angle in [0, 180) is the folded form of some input. */
  lemma NormalizeOnto(r: real)
    requires 0.0 <= r < 180.0
    ensures exists a: real :: Normalize(a) == r
  {
    NormalizeFixesRange(r);
  }

  /** Folding twice is folding once. */
  lemma NormalizeIdempotent(a: real)
    ensures Normalize(Normalize(a)) == Normalize(a)
  {
    NormalizeFixesRange(Normalize(a));
  }

  /** Adding any whole number of half turns does not change the folded angle. */
  lemma NormalizePeriodic(a: real, k: int)
    ensures Normalize(a + HalfTurns(k)) == Normalize(a)
  {
    var j := (a / 180.0).Floor;
    assert a == Normalize(a) + HalfTurns(j);
    NormalizeUnique(a + HalfTurns(k), Normalize(a), j + k);
  }

  // ---------------------------------------------------------------------------
  // From principal axis to letter
  // ---------------------------------------------------------------------------

  /**
    The angle the extractor reports. `axis` stands for the outcome of the
    image-processing stages: `None` when no contour was found, otherwise the
    direction, in degrees, of the largest contour's principal eigenvector.
  */
  function ExtractAngle(axis: Option<real>): (r: Option<real>)
    ensures r.None? <==> axis.None?
    ensures r.Some? ==> 0.0 <= r.value < 180.0
  {
    match axis
    case None => None
    case Some(theta) => Some(Normalize(theta))
  }

  /**
    The label produced for an image whose principal axis is `axis`. No
    contour gives "unknown"; for a found axis, the letter is "G" exactly
    when the folded angle is below 25 or above 155, "U" exactly when it lies
    strictly between 65 and 115, and "unknown" exactly on the two gaps.
  */
  function Recognize(axis: Option<real>): (r: Letter)
    ensures axis.None? ==> r == Unknown
    ensures axis.Some? ==>
      var a := Normalize(axis.value);
      (r == G <==> a < 25.0 || a > 155.0) &&
      (r == U <==> 65.0 < a < 115.0) &&
      (r == Unknown <==> 25.0 <= a <= 65.0 || 115.0 <= a <= 155.0)
  {
    Classify(ExtractAngle(axis))
  }

  /**
    A principal axis has no direction: reversing the eigenvector shifts its
    angle by a half turn, and the reported angle and the letter stay the same.
  */
  lemma AxisDirectionIrrelevant(theta: real, k: int)
    ensures ExtractAngle(Some(theta + HalfTurns(k))) == ExtractAngle(Some(theta))
    ensures Recognize(Some(theta + HalfTurns(k))) == Recognize(Some(theta))
  {
    NormalizePeriodic(theta, k);
  }

  /** Each of the three labels is produced for some contour outcome. */
  lemma EveryLetterReachable(l: Letter)
    ensures exists axis: Option<real> :: Recognize(axis) == l
  {
    match l
    case G =>
      NormalizeFixesRange(0.0);
      assert Recognize(Some(0.0)) == G;
    case U =>
      NormalizeFixesRange(90.0);
      assert Recognize(Some(90.0)) == U;
    case Unknown =>
      assert Recognize(None) == Unknown;
  }

  /**
    A slightly negative axis angle folds to just below 180 and reads as "G".
    Floating-point folding can round such an angle up to 180 itself, which
    the rule also reads as "G", so that rounding never changes the letter.
  */
  lemma SmallNegativeAxisIsG(e: real)
    requires 0.0 < e < 25.0
    ensures Normalize(-e) == 180.0 - e
    ensures Recognize(Some(-e)) == G
    ensures Classify(Some(180.0)) == G
  {
    NormalizeUnique(-e, 180.0 - e, -1);
  }
}
