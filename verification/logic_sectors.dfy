/**
 * What the logic sectors do to their spinner when their logic runs: a hold
 * sector holds the spinner for its count of spins, a nudge sector nudges it
 * once, and a speed sector rescales the delay between its steps.
 */
module LogicSectors {
  import opened Sectors
  import opened Spinners

  /** The `(long)` conversion of a floating-point value: truncation toward zero. */
  function Truncate(x: real): (r: int)
    ensures x >= 0.0 ==> 0 <= r && r as real <= x < r as real + 1.0
    ensures x < 0.0 ==> r <= 0 && r as real - 1.0 < x <= r as real
  {
    if x >= 0.0 then x.Floor else -((-x).Floor)
  }

  /**
   * The delay a speed sector leaves: the current delay less its percentage
   * share, truncated.  A positive percentage shortens the delay.
   */
  function AdjustedDelay(currentSpeed: int, speedVariancePercentage: real): int
  {
    var decimalAdjustment := speedVariancePercentage / 100.0;
    Truncate(currentSpeed as real - currentSpeed as real * decimalAdjustment)
  }

  /** SpeedAdjustmentSector.ExecuteLogic as a step on the spinner's state. */
  function AfterSpeedAdjustment(s: SpinnerState, speedVariancePercentage: real): SpinnerState
  {
    s.(waitBeforeMoving := AdjustedDelay(s.waitBeforeMoving, speedVariancePercentage))
  }

  /** The effect of running a logic sector's logic on its spinner. */
  function Effect(sector: Sector, s: SpinnerState): SpinnerState
    requires IsLogic(sector)
  {
    match sector
    case Hold(holdFor) => AfterHoldForNSpins(s, holdFor)
    case Nudge(_) => AfterNudge(s)
    case SpeedAdjustment(percentage) => AfterSpeedAdjustment(s, percentage)
  }

  /** HoldSector.ExecuteLogic. */
  method ExecuteHoldLogic(holdFor: int, spinner: Spinner)
    requires spinner.Valid()
    modifies spinner
    ensures spinner.State() == Effect(Hold(holdFor), old(spinner.State()))
  {
    spinner.HoldForNSpins(holdFor);
  }

  /** NudgeSector.ExecuteLogic: the stored count plays no part. */
  method ExecuteNudgeLogic(nudges: int, spinner: Spinner)
    requires spinner.Valid()
    modifies spinner
    ensures spinner.State() == Effect(Nudge(nudges), old(spinner.State()))
  {
    spinner.Nudge();
  }

  /** SpeedAdjustmentSector.ExecuteLogic: writes the new delay into the spinner. */
  method ExecuteSpeedAdjustmentLogic(speedVariancePercentage: real, spinner: Spinner)
    requires spinner.Valid()
    modifies spinner
    ensures spinner.State() == Effect(SpeedAdjustment(speedVariancePercentage), old(spinner.State()))
  {
    var currentSpeed := spinner.waitBeforeMoving;
    var decimalAdjustment := speedVariancePercentage / 100.0;
    var newSpeed := currentSpeed as real - currentSpeed as real * decimalAdjustment;
    spinner.waitBeforeMoving := Truncate(newSpeed);
  }

  /** BaseLogicSector.ExecuteLogic: dispatches on the kind of logic sector. */
  method ExecuteLogic(sector: Sector, spinner: Spinner)
    requires IsLogic(sector) && spinner.Valid()
    modifies spinner
    ensures spinner.State() == Effect(sector, old(spinner.State()))
  {
    match sector
    case Hold(holdFor) => ExecuteHoldLogic(holdFor, spinner);
    case Nudge(nudges) => ExecuteNudgeLogic(nudges, spinner);
    case SpeedAdjustment(percentage) => ExecuteSpeedAdjustmentLogic(percentage, spinner);
  }

  /** A "faster" percentage in (0, 100] never lengthens a non-negative delay, nor makes it negative. */
  lemma SpeedUpShortensDelay(delay: int, speedVariancePercentage: real)
    requires delay >= 0 && 0.0 < speedVariancePercentage <= 100.0
    ensures 0 <= AdjustedDelay(delay, speedVariancePercentage) <= delay
  {
    var d := delay as real;
    var q := speedVariancePercentage / 100.0;
    assert 0.0 < q <= 1.0;
    assert d * q >= 0.0;
    assert d - d * q == d * (1.0 - q);
    assert d * (1.0 - q) >= 0.0;
  }

  /** A "slower" (negative) percentage never shortens a non-negative delay. */
  lemma SlowDownLengthensDelay(delay: int, speedVariancePercentage: real)
    requires delay >= 0 && speedVariancePercentage < 0.0
    ensures AdjustedDelay(delay, speedVariancePercentage) >= delay
  {
    var d := delay as real;
    var q := speedVariancePercentage / 100.0;
    assert q < 0.0;
    assert d * q <= 0.0;
    assert d - d * q >= d;
  }

  /** A zero percentage leaves the delay as it was. */
  lemma ZeroPercentKeepsDelay(delay: int)
    ensures AdjustedDelay(delay, 0.0) == delay
  {
  }

  /** Each logic sector changes one part of its spinner's state and nothing else. */
  lemma EffectChangesOnlyItsField(sector: Sector, s: SpinnerState)
    requires IsLogic(sector)
    ensures sector.Hold? ==>
      Effect(sector, s).heldForNSpins == sector.holdFor &&
      Effect(sector, s).(heldForNSpins := s.heldForNSpins) == s
    ensures sector.Nudge? ==>
      Effect(sector, s).rotation == s.rotation + NudgeStep(s.direction, s.sectorSize) &&
      Effect(sector, s).(rotation := s.rotation) == s
    ensures sector.SpeedAdjustment? ==>
      Effect(sector, s).waitBeforeMoving == AdjustedDelay(s.waitBeforeMoving, sector.percentage) &&
      Effect(sector, s).(waitBeforeMoving := s.waitBeforeMoving) == s
  {
  }

  /** A nudge sector's effect does not depend on its stored count. */
  lemma NudgeIgnoresItsCount(a: int, b: int, s: SpinnerState)
    ensures Effect(Nudge(a), s) == Effect(Nudge(b), s)
  {
  }

  /** Running a hold sector twice holds for its count, not double: it overwrites. */
  lemma HoldOverwrites(holdFor: int, other: int, s: SpinnerState)
    ensures Effect(Hold(holdFor), Effect(Hold(holdFor), s)) == Effect(Hold(holdFor), s)
    ensures Effect(Hold(holdFor), Effect(Hold(other), s)) == Effect(Hold(holdFor), s)
    ensures Effect(Hold(holdFor), s).heldForNSpins == holdFor
  {
  }

  /**
   * "Held for n number of spins": after a hold sector with count n runs on a
   * stopped spinner, the next n TrySpin calls leave it stopped and the one
   * after them starts it.
   */
  lemma HoldKeepsSpinnerForNSpins(n: nat, s: SpinnerState)
    requires !s.spinning
    ensures forall k :: 0 <= k <= n ==> !TrySpins(Effect(Hold(n), s), k).spinning
    ensures TrySpins(Effect(Hold(n), s), n + 1).spinning
  {
    HoldForNSpinsSuppressesSpins(s, n);
  }
}
