/**
 * Reel: a spinner together with the pointer that says which sector it has
 * landed on.  The reel counts the nudges and holds it has landed on, switches
 * between hold-selection and nudge-selection mode, starts and stops its
 * spinner, resolves the sector it stopped on, and runs a nudge or hold sector's
 * logic when it is clicked.
 *
 * The pointer's sector is an input of the handlers that read it: the pointer
 * learns it from a physics collision with one of the spinner's sectors.
 * The ReelLandedOn signal is recorded in `landedOn`, one entry per emission.
 */
module Reels {
  import opened Wrappers
  import opened Sectors
  import Spinners
  import LogicSectors

  /** Everything a reel's handlers read or write, its spinner's state included. */
  datatype ReelState = ReelState(
    holdSelectionEnabled: bool,
    nudgeSelectionEnabled: bool,
    spinning: bool,
    nudgesAvailable: int,
    holdsAvailable: int,
    landedOn: seq<Sector>,
    spinner: Spinners.SpinnerState)

  /** The reel's invariant: at most one selection mode, no negative counters. */
  predicate ValidState(r: ReelState)
  {
    && !(r.holdSelectionEnabled && r.nudgeSelectionEnabled)
    && r.nudgesAvailable >= 0
    && r.holdsAvailable >= 0
  }

  /** _on_HUD_EnableHoldSelection. */
  function AfterEnableHoldSelection(r: ReelState): ReelState
  {
    r.(nudgeSelectionEnabled := false, holdSelectionEnabled := true)
  }

  /** _on_HUD_EnableNudgeSelection. */
  function AfterEnableNudgeSelection(r: ReelState): ReelState
  {
    r.(holdSelectionEnabled := false, nudgeSelectionEnabled := true)
  }

  /** Starting a spin: ask the spinner to spin and forget the counts of the last stop. */
  function AfterTrySpin(r: ReelState): ReelState
  {
    r.(spinner := Spinners.AfterTrySpin(r.spinner), holdsAvailable := 0, nudgesAvailable := 0)
  }

  /**
   * StopSpinning: stop the spinner, then resolve the sector pointed to.  A
   * mandatory logic sector runs its logic; otherwise a nudge or hold sector
   * adds its count to the matching counter.  ReelLandedOn is emitted in
   * every case.
   */
  function AfterStopSpinning(r: ReelState, sector: Sector): ReelState
  {
    var stopped := r.(spinner := Spinners.AfterStopSpinning(r.spinner));
    var resolved :=
      if sector.Value? then stopped
      else if !IsOptional(sector) then stopped.(spinner := LogicSectors.Effect(sector, stopped.spinner))
      else if sector.Nudge? then stopped.(nudgesAvailable := stopped.nudgesAvailable + sector.nudges)
      else if sector.Hold? then stopped.(holdsAvailable := stopped.holdsAvailable + sector.holdFor)
      else stopped;
    resolved.(landedOn := resolved.landedOn + [sector])
  }

  /** _on_HUD_ToggleSpin: start when not spinning, stop otherwise, and flip the flag. */
  function AfterToggleSpin(r: ReelState, pointsTo: Sector): ReelState
  {
    var next := if !r.spinning then AfterTrySpin(r) else AfterStopSpinning(r, pointsTo);
    next.(spinning := !r.spinning)
  }

  /**
   * _on_Reel_input_event: a press on a pointed-to sector runs a hold
   * sector's logic while holds are available, else a nudge sector's logic
   * while nudges are available.  Nothing else happens, and the counters are
   * never changed here.
   */
  function AfterInputEvent(r: ReelState, pressed: bool, pointsTo: Option<Sector>): ReelState
  {
    if !(pressed && pointsTo.Some?) then r
    else
      var sector := pointsTo.value;
      if r.holdsAvailable == 0 && r.nudgesAvailable == 0 then r
      else if sector.Value? then r
      else if r.holdsAvailable > 0 && sector.Hold? then r.(spinner := LogicSectors.Effect(sector, r.spinner))
      else if r.nudgesAvailable > 0 && sector.Nudge? then r.(spinner := LogicSectors.Effect(sector, r.spinner))
      else r
  }

  /** Enabling one selection mode clears the other, so the two are never both on. */
  lemma SelectionModesExclusive(r: ReelState)
    ensures AfterEnableHoldSelection(r).holdSelectionEnabled && !AfterEnableHoldSelection(r).nudgeSelectionEnabled
    ensures AfterEnableNudgeSelection(r).nudgeSelectionEnabled && !AfterEnableNudgeSelection(r).holdSelectionEnabled
    ensures ValidState(r) ==> ValidState(AfterEnableHoldSelection(r)) && ValidState(AfterEnableNudgeSelection(r))
  {
  }

  /** Every toggle flips the reel's spinning flag, so two toggles restore it. */
  lemma ToggleFlipsSpinning(r: ReelState, first: Sector, second: Sector)
    ensures AfterToggleSpin(r, first).spinning == !r.spinning
    ensures AfterToggleSpin(AfterToggleSpin(r, first), second).spinning == r.spinning
  {
  }

  /** A toggle on a stopped reel asks the spinner to spin and zeroes both counters. */
  lemma ToggleWhenStoppedStartsSpin(r: ReelState, pointsTo: Sector)
    requires !r.spinning
    ensures var next := AfterToggleSpin(r, pointsTo);
      && next.spinner == Spinners.AfterTrySpin(r.spinner)
      && next.holdsAvailable == 0 && next.nudgesAvailable == 0
      && next.landedOn == r.landedOn
      && next.spinning
  {
  }

  /** A toggle on a spinning reel stops its spinner and emits ReelLandedOn once, with the pointed sector. */
  lemma ToggleWhenSpinningLands(r: ReelState, pointsTo: Sector)
    requires r.spinning
    ensures var next := AfterToggleSpin(r, pointsTo);
      && next == AfterStopSpinning(r, pointsTo).(spinning := false)
      && next.landedOn == r.landedOn + [pointsTo]
      && !next.spinner.spinning
  {
  }

  /**
   * How a stop is resolved, by the kind of sector landed on: mandatory logic
   * runs and leaves the counters alone; a nudge or hold sector adds its
   * count to its own counter only; a value sector changes neither.
   */
  lemma StopResolution(r: ReelState, sector: Sector)
    ensures var next := AfterStopSpinning(r, sector);
      && next.landedOn == r.landedOn + [sector]
      && !next.spinner.spinning
      && next.holdSelectionEnabled == r.holdSelectionEnabled
      && next.nudgeSelectionEnabled == r.nudgeSelectionEnabled
      && next.spinning == r.spinning
    ensures IsLogic(sector) && !IsOptional(sector) ==>
      var next := AfterStopSpinning(r, sector);
      && next.spinner == LogicSectors.Effect(sector, Spinners.AfterStopSpinning(r.spinner))
      && next.nudgesAvailable == r.nudgesAvailable && next.holdsAvailable == r.holdsAvailable
    ensures sector.Nudge? ==>
      var next := AfterStopSpinning(r, sector);
      && next.spinner == Spinners.AfterStopSpinning(r.spinner)
      && next.nudgesAvailable == r.nudgesAvailable + sector.nudges && next.holdsAvailable == r.holdsAvailable
    ensures sector.Hold? ==>
      var next := AfterStopSpinning(r, sector);
      && next.spinner == Spinners.AfterStopSpinning(r.spinner)
      && next.holdsAvailable == r.holdsAvailable + sector.holdFor && next.nudgesAvailable == r.nudgesAvailable
    ensures sector.Value? ==>
      AfterStopSpinning(r, sector) ==
        r.(spinner := Spinners.AfterStopSpinning(r.spinner), landedOn := r.landedOn + [sector])
  {
  }

  /** Starting, landing on a well-formed sector and toggling each keep the reel's invariant. */
  lemma TogglingKeepsValid(r: ReelState, sector: Sector)
    requires ValidState(r) && WellFormed(sector)
    ensures ValidState(AfterStopSpinning(r, sector))
    ensures ValidState(AfterTrySpin(r))
    ensures ValidState(AfterToggleSpin(r, sector))
  {
  }

  /**
   * A click changes nothing but the spinner, and the spinner only when the
   * matching counter is positive and the pointed sector has the matching kind:
   * hold first, nudge otherwise.
   */
  lemma ClickRules(r: ReelState, pressed: bool, pointsTo: Option<Sector>)
    ensures var next := AfterInputEvent(r, pressed, pointsTo);
      next == r.(spinner := next.spinner)
    ensures !pressed || pointsTo.None? ==> AfterInputEvent(r, pressed, pointsTo) == r
    ensures r.holdsAvailable == 0 && r.nudgesAvailable == 0 ==> AfterInputEvent(r, pressed, pointsTo) == r
    ensures pointsTo.Some? && pointsTo.value.Value? ==> AfterInputEvent(r, pressed, pointsTo) == r
    ensures pressed && pointsTo.Some? && r.holdsAvailable > 0 && pointsTo.value.Hold? ==>
      AfterInputEvent(r, pressed, pointsTo).spinner == LogicSectors.Effect(pointsTo.value, r.spinner)
    ensures (pressed && pointsTo.Some? && !(r.holdsAvailable > 0 && pointsTo.value.Hold?) &&
             r.nudgesAvailable > 0 && pointsTo.value.Nudge?) ==>
      AfterInputEvent(r, pressed, pointsTo).spinner == LogicSectors.Effect(pointsTo.value, r.spinner)
    ensures pointsTo.Some? && pointsTo.value.SpeedAdjustment? ==> AfterInputEvent(r, pressed, pointsTo) == r
    ensures pointsTo.Some? && pointsTo.value.Hold? && r.holdsAvailable <= 0 ==> AfterInputEvent(r, pressed, pointsTo) == r
    ensures pointsTo.Some? && pointsTo.value.Nudge? && r.nudgesAvailable <= 0 ==> AfterInputEvent(r, pressed, pointsTo) == r
  {
  }

  /** Optional logic (nudge, hold) never runs on a stop: only the spinner's stop happens to the spinner. */
  lemma OptionalLogicWaitsForInput(r: ReelState, sector: Sector)
    requires IsLogic(sector) && IsOptional(sector)
    ensures AfterStopSpinning(r, sector).spinner == Spinners.AfterStopSpinning(r.spinner)
  {
  }

  /** k presses on the same pointed sector in a row. */
  function Clicks(r: ReelState, sector: Sector, k: nat): ReelState
    decreases k
  {
    if k == 0 then r else Clicks(AfterInputEvent(r, true, Some(sector)), sector, k - 1)
  }

  /**
   * A click never spends a nudge: while any nudge is available, every press
   * on a nudge sector nudges the spinner one more sector.
   */
  lemma {:induction false} NudgeClicksNeverRunOut(r: ReelState, sector: Sector, k: nat)
    requires sector.Nudge? && r.nudgesAvailable > 0
    ensures Clicks(r, sector, k) == r.(spinner := Spinners.Nudges(r.spinner, k))
    ensures Clicks(r, sector, k).spinner.rotation ==
      r.spinner.rotation + k * Spinners.NudgeStep(r.spinner.direction, r.spinner.sectorSize)
    decreases k
  {
    if k > 0 {
      var next := AfterInputEvent(r, true, Some(sector));
      assert next == r.(spinner := Spinners.AfterNudge(r.spinner));
      NudgeClicksNeverRunOut(next, sector, k - 1);
    }
    Spinners.NudgesAdvance(r.spinner, k);
  }

  class Reel {
    const spinner: Spinners.Spinner

    var holdSelectionEnabled: bool
    var nudgeSelectionEnabled: bool
    var nudgesAvailable: int
    var holdsAvailable: int
    var spinning: bool
    /** The sectors emitted with ReelLandedOn so far, oldest first. */
    var landedOn: seq<Sector>

    ghost function Snapshot(): ReelState
      reads this, spinner
      requires spinner.Valid()
    {
      ReelState(holdSelectionEnabled, nudgeSelectionEnabled, spinning, nudgesAvailable, holdsAvailable,
                landedOn, spinner.State())
    }

    ghost predicate Valid()
      reads this, spinner
    {
      spinner.Valid() && ValidState(Snapshot())
    }

    constructor (spinner: Spinners.Spinner)
      requires spinner.Valid()
      ensures Valid() && this.spinner == spinner
      ensures Snapshot() == ReelState(false, false, false, 0, 0, [], spinner.State())
    {
      this.spinner := spinner;
      holdSelectionEnabled := false;
      nudgeSelectionEnabled := false;
      nudgesAvailable := 0;
      holdsAvailable := 0;
      spinning := false;
      landedOn := [];
    }

    method EnableHoldSelection()
      requires Valid()
      modifies this
      ensures Valid() && Snapshot() == AfterEnableHoldSelection(old(Snapshot()))
    {
      nudgeSelectionEnabled := false;
      holdSelectionEnabled := true;
    }

    method EnableNudgeSelection()
      requires Valid()
      modifies this
      ensures Valid() && Snapshot() == AfterEnableNudgeSelection(old(Snapshot()))
    {
      holdSelectionEnabled := false;
      nudgeSelectionEnabled := true;
    }

    /** The start half of the toggle handler. */
    method TrySpin()
      requires Valid()
      modifies this, spinner
      ensures Valid() && Snapshot() == AfterTrySpin(old(Snapshot()))
    {
      spinner.TrySpin();
      holdsAvailable := 0;
      nudgesAvailable := 0;
    }

    /** The stop half of the toggle handler, on the sector the pointer points to. */
    method StopSpinning(pointsTo: Sector)
      requires Valid() && spinner.OnLayout(pointsTo)
      modifies this, spinner
      ensures Valid() && Snapshot() == AfterStopSpinning(old(Snapshot()), pointsTo)
    {
      ghost var i :| 0 <= i < |spinner.sectors| && spinner.sectors[i].sector == pointsTo;
      assert WellFormed(pointsTo);
      spinner.StopSpinning();
      var sector := pointsTo;
      if sector.Value? {
        // Value sectors are only reported.
      } else if !IsOptional(sector) {
        LogicSectors.ExecuteLogic(sector, spinner);
      } else if sector.Nudge? {
        nudgesAvailable := nudgesAvailable + sector.nudges;
      } else if sector.Hold? {
        holdsAvailable := holdsAvailable + sector.holdFor;
      }
      landedOn := landedOn + [sector];
    }

    method ToggleSpin(pointsTo: Sector)
      requires Valid() && (spinning ==> spinner.OnLayout(pointsTo))
      modifies this, spinner
      ensures Valid() && Snapshot() == AfterToggleSpin(old(Snapshot()), pointsTo)
    {
      if !spinning {
        TrySpin();
      } else {
        StopSpinning(pointsTo);
      }
      spinning := !spinning;
    }

    /** A mouse event on the reel; `pressed` is a pressed mouse button, `pointsTo` the pointer's sector, if any. */
    method InputEvent(pressed: bool, pointsTo: Option<Sector>)
      requires Valid() && (pointsTo.Some? ==> spinner.OnLayout(pointsTo.value))
      modifies spinner
      ensures Valid() && Snapshot() == AfterInputEvent(old(Snapshot()), pressed, pointsTo)
    {
      if pressed && pointsTo.Some? {
        var baseSector := pointsTo.value;
        if holdsAvailable == 0 && nudgesAvailable == 0 {
          return;
        }
        if baseSector.Value? {
          // Clicking a value sector does nothing.
        } else {
          if holdsAvailable > 0 && baseSector.Hold? {
            LogicSectors.ExecuteHoldLogic(baseSector.holdFor, spinner);
          } else if nudgesAvailable > 0 && baseSector.Nudge? {
            LogicSectors.ExecuteNudgeLogic(baseSector.nudges, spinner);
          }
        }
      }
    }
  }
}
