/**
 * The sectors of a spinner: a value sector, which carries a face value to be
 * matched, and the three kinds of logic sector, which carry an effect on
 * their spinner.
 */
module Sectors {

  /**
   * One angular slice of a spinner.
   * - Value: a face value (ValueSector).
   * - Nudge: a nudge sector holding its `_nudges` count (NudgeSector).
   * - Hold: a hold sector holding its `_holdFor` count (HoldSector).
   * - SpeedAdjustment: a speed sector holding its `speedVariancePercentage`
   *   (SpeedAdjustmentSector); positive speeds the spinner up.
   */
  datatype Sector =
    | Value(value: int)
    | Nudge(nudges: int)
    | Hold(holdFor: int)
    | SpeedAdjustment(percentage: real)

  /** Whether the sector is a logic sector (derives from BaseLogicSector). */
  predicate IsLogic(s: Sector)
  {
    !s.Value?
  }

  /**
   * BaseLogicSector.IsOptional: true unless the sector kind overrides it.
   * Only SpeedAdjustmentSector overrides it, with false.
   */
  function IsOptional(s: Sector): (optional: bool)
    requires IsLogic(s)
    ensures optional <==> s.Nudge? || s.Hold?
    ensures !optional <==> s.SpeedAdjustment?
  {
    match s
    case SpeedAdjustment(_) => false
    case _ => true
  }

  /** The sectors the factory can produce: faces 1..6, nudge and hold counts 1..2. */
  predicate WellFormed(s: Sector)
  {
    match s
    case Value(v) => 1 <= v <= 6
    case Nudge(n) => 1 <= n <= 2
    case Hold(n) => 1 <= n <= 2
    case SpeedAdjustment(_) => true
  }
}
