/**
 * The experience calculator (Services/XPCalculator.cs): a stateless map from cue type,
 * interval and outcome to a signed experience change.
 *
 * The C# code computes the interval modifier in doubles; here it is computed exactly in
 * `real`, and the `(int)` casts of non-negative products become `Floor`.
 */
module XPCalculator {
  import opened Models

  const BasePositionChangeXP: int := 10
  const BaseStandingXP: int := 25
  const BaseSittingXP: int := 15
  const BaseFloorXP: int := 35

  /** The share of the gain that a dismissal or a timeout costs. */
  const PenaltyMultiplier: real := 0.5

  predicate IsFloorExercise(t: CueType) { t == FloorStretch || t == FloorMobilityDrill }
  predicate IsStandingExercise(t: CueType) { t == StandingStretch || t == StandingMobilityDrill }
  predicate IsSittingExercise(t: CueType) { t == SittingStretch || t == SittingMobilityDrill }

  /**
   * The base experience of a cue type: position changes the least, then sitting, standing
   * and floor exercises.
   */
  function GetBaseXP(t: CueType): (r: int)
    ensures r == BasePositionChangeXP <==> IsPositionChange(t)
    ensures r == BaseSittingXP <==> IsSittingExercise(t)
    ensures r == BaseStandingXP <==> IsStandingExercise(t)
    ensures r == BaseFloorXP <==> IsFloorExercise(t)
  {
    match t
    case DeskStanding => BasePositionChangeXP
    case DeskSitting => BasePositionChangeXP
    case DeskFloor => BasePositionChangeXP
    case StandingStretch => BaseStandingXP
    case StandingMobilityDrill => BaseStandingXP
    case SittingStretch => BaseSittingXP
    case SittingMobilityDrill => BaseSittingXP
    case FloorStretch => BaseFloorXP
    case FloorMobilityDrill => BaseFloorXP
  }

  /** `1 - max(0, interval - 30) / 300`, clamped first to at most 1.0 and then to at least 0.7. */
  function IntervalModifier(intervalMinutes: int): (m: real)
    ensures 0.7 <= m <= 1.0
  {
    var excess := if intervalMinutes - 30 > 0 then intervalMinutes - 30 else 0;
    var raw := 1.0 - (excess as real) / 300.0;
    var atMostOne := if raw < 1.0 then raw else 1.0;
    if 0.7 > atMostOne then 0.7 else atMostOne
  }

  /**
   * The experience change for a cue of type `t` shown at the given interval. In integers, a
   * completed cue earns `base * (300 - d) / 300`, where `d` is the interval's excess over
   * 30 minutes capped at 90.
   */
  function CalculateXPGain(t: CueType, intervalMinutes: int, completed: bool): (r: int)
    ensures completed ==> r == GetBaseXP(t) * (300 - DampedMinutes(intervalMinutes)) / 300
  {
    var baseXP := GetBaseXP(t);
    assert baseXP == BasePositionChangeXP || baseXP == BaseSittingXP
        || baseXP == BaseStandingXP || baseXP == BaseFloorXP;
    ScaledFloor(baseXP, intervalMinutes);
    var modifiedXP := ((baseXP as real) * IntervalModifier(intervalMinutes)).Floor;
    if !completed then -(((modifiedXP as real) * PenaltyMultiplier).Floor) else modifiedXP
  }

  /** The excess of the interval over 30 minutes that the modifier takes into account (0..90). */
  function DampedMinutes(intervalMinutes: int): (d: int)
    ensures 0 <= d <= 90
  {
    if intervalMinutes <= 30 then 0 else if intervalMinutes >= 120 then 90 else intervalMinutes - 30
  }

  /** The floor of a quotient of naturals is their integer quotient. */
  lemma FloorOfQuotient(x: int, y: int)
    requires x >= 0 && y > 0
    ensures ((x as real) / (y as real)).Floor == x / y
  {
    var q, r := x / y, x % y;
    assert (x as real) == (q as real) * (y as real) + (r as real);
    assert (x as real) / (y as real) == (q as real) + (r as real) / (y as real);
    assert 0.0 <= (r as real) / (y as real) < 1.0;
  }

  /** The modifier is `(300 - d) / 300` for the damped excess `d`. */
  lemma ModifierForm(intervalMinutes: int)
    ensures IntervalModifier(intervalMinutes) == ((300 - DampedMinutes(intervalMinutes)) as real) / 300.0
  {
    var d := DampedMinutes(intervalMinutes);
    if intervalMinutes <= 30 {
      assert d == 0;
    } else if intervalMinutes >= 120 {
      assert 1.0 - ((intervalMinutes - 30) as real) / 300.0 <= 0.7;
    } else {
      assert 1.0 - ((intervalMinutes - 30) as real) / 300.0 == ((300 - d) as real) / 300.0;
    }
  }

  /** For a base experience `b`, scaling `e / 300` by `b` gives `(b * e) / 300`. */
  lemma ScaleQuotient(b: int, e: int)
    requires b == BasePositionChangeXP || b == BaseSittingXP || b == BaseStandingXP || b == BaseFloorXP
    ensures (b as real) * ((e as real) / 300.0) == ((b * e) as real) / (300 as real)
  {
    if b == BasePositionChangeXP {
      assert (b * e) as real == 10.0 * (e as real);
    } else if b == BaseSittingXP {
      assert (b * e) as real == 15.0 * (e as real);
    } else if b == BaseStandingXP {
      assert (b * e) as real == 25.0 * (e as real);
    } else {
      assert (b * e) as real == 35.0 * (e as real);
    }
  }

  /** For a base experience `b`, the floor of `b` times the modifier is `b * (300 - d) / 300`. */
  lemma ScaledFloor(b: int, intervalMinutes: int)
    requires b == BasePositionChangeXP || b == BaseSittingXP || b == BaseStandingXP || b == BaseFloorXP
    ensures ((b as real) * IntervalModifier(intervalMinutes)).Floor
         == b * (300 - DampedMinutes(intervalMinutes)) / 300
  {
    var e := 300 - DampedMinutes(intervalMinutes);
    assert (b as real) * IntervalModifier(intervalMinutes) == ((b * e) as real) / (300 as real) by {
      ModifierForm(intervalMinutes);
      ScaleQuotient(b, e);
    }
    FloorOfQuotient(b * e, 300);
  }

  /** A dismissal costs half the completion gain, rounded toward zero. */
  lemma PenaltyIsHalfTheGain(t: CueType, intervalMinutes: int)
    ensures CalculateXPGain(t, intervalMinutes, false) == -(CalculateXPGain(t, intervalMinutes, true) / 2)
  {
    var g := CalculateXPGain(t, intervalMinutes, true);
    assert g >= 0;
    assert (g as real) * PenaltyMultiplier == (g as real) / (2 as real);
    FloorOfQuotient(g, 2);
  }

  /** Up to 30 minutes the gain is the full base experience. */
  lemma ShortIntervalsEarnBase(t: CueType, intervalMinutes: int)
    requires intervalMinutes <= 30
    ensures CalculateXPGain(t, intervalMinutes, true) == GetBaseXP(t)
  {
  }

  /**
   * The gain lies between 70% of the base (truncated) and the base, so it is at least 7:
   * completing a cue always earns something.
   */
  lemma GainBounds(t: CueType, intervalMinutes: int)
    ensures GetBaseXP(t) * 7 / 10 <= CalculateXPGain(t, intervalMinutes, true) <= GetBaseXP(t)
    ensures CalculateXPGain(t, intervalMinutes, true) >= 7
  {
    var b := GetBaseXP(t);
    var d := DampedMinutes(intervalMinutes);
    assert b * (300 - d) >= b * 210;
    assert b * (300 - d) <= b * 300;
  }

  /** Longer intervals never earn more, and from 120 minutes on the gain no longer changes. */
  lemma GainNonIncreasing(t: CueType, shorter: int, longer: int)
    requires shorter <= longer
    ensures CalculateXPGain(t, longer, true) <= CalculateXPGain(t, shorter, true)
    ensures shorter >= 120 ==> CalculateXPGain(t, longer, true) == CalculateXPGain(t, shorter, true)
  {
    var b := GetBaseXP(t);
    assert DampedMinutes(shorter) <= DampedMinutes(longer);
    assert b * (300 - DampedMinutes(longer)) <= b * (300 - DampedMinutes(shorter));
  }

  /** A dismissal always costs experience, and never more than half of what completing earns. */
  lemma PenaltyBounds(t: CueType, intervalMinutes: int)
    ensures CalculateXPGain(t, intervalMinutes, false) < 0
    ensures -CalculateXPGain(t, intervalMinutes, false) <= CalculateXPGain(t, intervalMinutes, true) / 2
  {
    PenaltyIsHalfTheGain(t, intervalMinutes);
    GainBounds(t, intervalMinutes);
  }

  const FloorLabel: string := "High XP (Floor exercise)"
  const StandingLabel: string := "Medium XP (Standing exercise)"
  const SittingLabel: string := "Low XP (Sitting exercise)"
  const PositionChangeLabel: string := "Minimal XP (Position change)"

  /** The label shown next to a cue type's experience. */
  function GetXPDescription(t: CueType): (r: string)
    ensures IsFloorExercise(t) ==> r == FloorLabel
    ensures IsStandingExercise(t) ==> r == StandingLabel
    ensures IsSittingExercise(t) ==> r == SittingLabel
    ensures IsPositionChange(t) ==> r == PositionChangeLabel
  {
    match t
    case FloorStretch | FloorMobilityDrill => FloorLabel
    case StandingStretch | StandingMobilityDrill => StandingLabel
    case SittingStretch | SittingMobilityDrill => SittingLabel
    case _ => PositionChangeLabel
  }

  /** The four labels differ, so each names exactly its group of cue types. */
  lemma DescriptionIdentifiesGroup(t: CueType)
    ensures GetXPDescription(t) == FloorLabel <==> IsFloorExercise(t)
    ensures GetXPDescription(t) == StandingLabel <==> IsStandingExercise(t)
    ensures GetXPDescription(t) == SittingLabel <==> IsSittingExercise(t)
    ensures GetXPDescription(t) == PositionChangeLabel <==> IsPositionChange(t)
  {
    assert FloorLabel[0] == 'H' && SittingLabel[0] == 'L';
    assert StandingLabel[0] == 'M' && StandingLabel[1] == 'e';
    assert PositionChangeLabel[0] == 'M' && PositionChangeLabel[1] == 'i';
  }
}
