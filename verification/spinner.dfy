/**
 * Spinner: the rotating disc of a reel.  It keeps a held-spin counter, a
 * spinning flag, its rotation (whole degrees), the delay between two steps
 * and the time of its last step.  The pure step functions below say what each
 * of its methods does to that state; the class's methods are proved against
 * them, and the lemmas state what the step functions promise.
 */
module Spinners {
  import opened Wrappers
  import Sectors
  import SectorFactory

  /** The configured turning direction. */
  datatype Direction = Clockwise | AntiClockwise

  /**
   * SectorSize: 360 divided by the number of sectors in integer division.
   * The dividend is positive, so rounding toward zero and Dafny's Euclidean
   * division agree for every non-zero divisor.  For a positive count the
   * slices fit into the circle and leave less than one slice uncovered.
   */
  function SectorSizeFor(numberOfSectors: int): (size: int)
    requires numberOfSectors != 0
    ensures numberOfSectors > 0 ==> 0 <= size && numberOfSectors * size <= 360 < numberOfSectors * (size + 1)
    ensures numberOfSectors < 0 ==> size <= 0
  {
    360 / numberOfSectors
  }

  /** With eleven sectors the slices cover only 352 of the 360 degrees. */
  lemma ElevenSectorsLeaveAGap()
    ensures SectorSizeFor(11) == 32 && 11 * SectorSizeFor(11) == 352
  {
  }

  /** The slices of a layout made with SectorSizeFor(n) lie within [0, 360]. */
  lemma SlicesWithinCircle(numberOfSectors: int, i: int)
    requires numberOfSectors > 0 && 0 <= i < numberOfSectors
    ensures var size := SectorSizeFor(numberOfSectors);
      0 <= size * i && size * i + size <= 360
  {
    var size := SectorSizeFor(numberOfSectors);
    var rest := numberOfSectors - (i + 1);
    assert size * rest >= 0;
    assert size * i + size + size * rest == size * numberOfSectors;
  }

  /** Everything a spinner's methods read or write, as one value. */
  datatype SpinnerState = SpinnerState(
    direction: Direction,
    sectorSize: int,
    heldForNSpins: int,
    spinning: bool,
    rotation: int,
    waitBeforeMoving: int,
    lastMovedAt: int)

  /** TrySpin: a held spinner uses up one hold instead of starting. */
  function AfterTrySpin(s: SpinnerState): SpinnerState
  {
    if s.heldForNSpins > 0 then s.(heldForNSpins := s.heldForNSpins - 1)
    else s.(spinning := true)
  }

  /** StopSpinning: clears the spinning flag only. */
  function AfterStopSpinning(s: SpinnerState): SpinnerState
  {
    s.(spinning := false)
  }

  /** HoldForNSpins: overwrites the held-spin counter. */
  function AfterHoldForNSpins(s: SpinnerState, numberOfSpins: int): SpinnerState
  {
    s.(heldForNSpins := numberOfSpins)
  }

  /** The rotation a nudge adds: one sector in the configured direction. */
  function NudgeStep(direction: Direction, sectorSize: int): int
  {
    match direction
    case Clockwise => sectorSize
    case AntiClockwise => -sectorSize
  }

  /** Nudge: one sector in the configured direction, spinning or not. */
  function AfterNudge(s: SpinnerState): SpinnerState
  {
    s.(rotation := s.rotation + NudgeStep(s.direction, s.sectorSize))
  }

  /** MaybeMove at time `now`: one step once the delay since the last step has passed. */
  function AfterMaybeMove(s: SpinnerState, now: int): SpinnerState
  {
    if s.spinning && s.lastMovedAt + s.waitBeforeMoving <= now
    then s.(rotation := s.rotation + s.sectorSize, lastMovedAt := now)
    else s
  }

  /** k TrySpin calls in a row. */
  function TrySpins(s: SpinnerState, k: nat): SpinnerState
    decreases k
  {
    if k == 0 then s else TrySpins(AfterTrySpin(s), k - 1)
  }

  /** k Nudge calls in a row. */
  function Nudges(s: SpinnerState, k: nat): SpinnerState
    decreases k
  {
    if k == 0 then s else Nudges(AfterNudge(s), k - 1)
  }

  /** One MaybeMove per tick, at the given times. */
  function Ticks(s: SpinnerState, nows: seq<int>): SpinnerState
    decreases |nows|
  {
    if nows == [] then s else Ticks(AfterMaybeMove(s, nows[0]), nows[1..])
  }

  /** TrySpin starts a spinner exactly when it holds no spins, and never stops one. */
  lemma TrySpinStartsUnlessHeld(s: SpinnerState)
    ensures AfterTrySpin(s).spinning <==> s.spinning || s.heldForNSpins <= 0
    ensures s.heldForNSpins <= 0 ==> AfterTrySpin(s).(spinning := s.spinning) == s
    ensures s.heldForNSpins > 0 ==>
      AfterTrySpin(s).heldForNSpins == s.heldForNSpins - 1 &&
      AfterTrySpin(s).(heldForNSpins := s.heldForNSpins) == s
  {
  }

  /** While holds remain, each TrySpin uses one up and changes nothing else. */
  lemma {:induction false} TrySpinsWhileHeld(s: SpinnerState, k: nat)
    requires k <= s.heldForNSpins
    ensures TrySpins(s, k) == s.(heldForNSpins := s.heldForNSpins - k)
    decreases k
  {
    if k > 0 {
      TrySpinsWhileHeld(AfterTrySpin(s), k - 1);
    }
  }

  /**
   * After HoldForNSpins(n) on a stopped spinner, the next n TrySpin calls do
   * not start it and the one after them does.
   */
  lemma HoldForNSpinsSuppressesSpins(s: SpinnerState, n: nat)
    requires !s.spinning
    ensures forall k :: 0 <= k <= n ==>
      TrySpins(AfterHoldForNSpins(s, n), k) == s.(heldForNSpins := n - k)
    ensures forall k :: 0 <= k <= n ==> !TrySpins(AfterHoldForNSpins(s, n), k).spinning
    ensures TrySpins(AfterHoldForNSpins(s, n), n + 1) == s.(heldForNSpins := 0, spinning := true)
  {
    var held := AfterHoldForNSpins(s, n);
    forall k | 0 <= k <= n
      ensures TrySpins(held, k) == s.(heldForNSpins := n - k)
    {
      TrySpinsWhileHeld(held, k);
    }
    TrySpinsWhileHeld(held, n);
    assert TrySpins(held, n + 1) == TrySpins(AfterTrySpin(held), n);
    TrySpinsAfter(held, n);
  }

  /** The (k+1)-th TrySpin is one more TrySpin after the first k. */
  lemma {:induction false} TrySpinsAfter(s: SpinnerState, k: nat)
    ensures TrySpins(s, k + 1) == AfterTrySpin(TrySpins(s, k))
    decreases k
  {
    if k > 0 {
      TrySpinsAfter(AfterTrySpin(s), k - 1);
    }
  }

  /** HoldForNSpins overwrites: a second call decides the count alone. */
  lemma HoldForNSpinsOverwrites(s: SpinnerState, m: int, n: int)
    ensures AfterHoldForNSpins(AfterHoldForNSpins(s, m), n) == AfterHoldForNSpins(s, n)
    ensures AfterHoldForNSpins(AfterHoldForNSpins(s, n), n) == AfterHoldForNSpins(s, n)
  {
  }

  /** StopSpinning leaves rotation, holds and timing alone. */
  lemma StopSpinningOnlyStops(s: SpinnerState)
    ensures !AfterStopSpinning(s).spinning
    ensures AfterStopSpinning(s).(spinning := s.spinning) == s
  {
  }

  /** k nudges turn the spinner by k sectors in its direction, whatever else holds. */
  lemma {:induction false} NudgesAdvance(s: SpinnerState, k: nat)
    ensures Nudges(s, k) == s.(rotation := s.rotation + k * NudgeStep(s.direction, s.sectorSize))
    decreases k
  {
    if k > 0 {
      NudgesAdvance(AfterNudge(s), k - 1);
      assert (k - 1) * NudgeStep(s.direction, s.sectorSize) + NudgeStep(s.direction, s.sectorSize)
          == k * NudgeStep(s.direction, s.sectorSize);
    }
  }

  /**
   * MaybeMove takes at most one step: the rotation grows by nothing or by one
   * sector, a step records the tick's time, nothing else changes, a stopped
   * spinner never moves, and with a positive delay a second tick at the same
   * time does not move again (no catch-up).
   */
  lemma MaybeMoveAtMostOneStep(s: SpinnerState, now: int)
    ensures var r := AfterMaybeMove(s, now);
      r.rotation == s.rotation || r.rotation == s.rotation + s.sectorSize
    ensures var r := AfterMaybeMove(s, now);
      r != s ==> r.lastMovedAt == now
    ensures AfterMaybeMove(s, now).(rotation := s.rotation, lastMovedAt := s.lastMovedAt) == s
    ensures !s.spinning ==> AfterMaybeMove(s, now) == s
    ensures s.waitBeforeMoving > 0 ==>
      AfterMaybeMove(AfterMaybeMove(s, now), now) == AfterMaybeMove(s, now)
  {
  }

  /** Over any run of ticks the spinner takes at most one step per tick, and none when stopped. */
  lemma {:induction false} TicksAtMostOneStepEach(s: SpinnerState, nows: seq<int>)
    ensures exists steps :: (0 <= steps <= |nows| &&
      Ticks(s, nows).rotation == s.rotation + steps * s.sectorSize)
    ensures !s.spinning ==> Ticks(s, nows) == s
    ensures Ticks(s, nows).(rotation := s.rotation, lastMovedAt := s.lastMovedAt) == s
    decreases |nows|
  {
    if nows != [] {
      var next := AfterMaybeMove(s, nows[0]);
      TicksAtMostOneStepEach(next, nows[1..]);
      var steps :| 0 <= steps <= |nows[1..]| &&
        Ticks(next, nows[1..]).rotation == next.rotation + steps * next.sectorSize;
      if next.rotation == s.rotation {
        assert Ticks(s, nows).rotation == s.rotation + steps * s.sectorSize;
      } else {
        assert steps * s.sectorSize + s.sectorSize == (steps + 1) * s.sectorSize;
        assert Ticks(s, nows).rotation == s.rotation + (steps + 1) * s.sectorSize;
      }
    } else {
      assert Ticks(s, nows).rotation == s.rotation + 0 * s.sectorSize;
    }
  }

  /** No tick before the delay since the last step has elapsed moves the spinner. */
  lemma {:induction false} NoStepBeforeDelay(s: SpinnerState, nows: seq<int>)
    requires forall i :: 0 <= i < |nows| ==> nows[i] < s.lastMovedAt + s.waitBeforeMoving
    ensures Ticks(s, nows) == s
    decreases |nows|
  {
    if nows != [] {
      assert AfterMaybeMove(s, nows[0]) == s;
      assert forall i :: 0 <= i < |nows[1..]| ==> nows[1..][i] == nows[i + 1];
      NoStepBeforeDelay(s, nows[1..]);
    }
  }

  /** A tick of a spinning spinner once the delay has elapsed takes its step. */
  lemma DueStepIsTaken(s: SpinnerState, now: int)
    requires s.spinning && s.lastMovedAt + s.waitBeforeMoving <= now
    ensures AfterMaybeMove(s, now).rotation == s.rotation + s.sectorSize
    ensures AfterMaybeMove(s, now).lastMovedAt == now
  {
  }

  /**
   * A spinner with its sector layout.  Rotation is in whole degrees.  The
   * layout, direction and sector count never change after construction.
   */
  class Spinner {
    const direction: Direction
    const numberOfSectors: int
    const sectors: seq<SectorFactory.PlacedSector>

    var heldForNSpins: int
    var spinning: bool
    var rotation: int
    var waitBeforeMoving: int
    var lastMovedAt: int

    /** The layout came from the factory: enough sectors, all well formed. */
    predicate Valid()
    {
      && numberOfSectors >= SectorFactory.MinSectors
      && |sectors| == numberOfSectors
      && forall i :: 0 <= i < |sectors| ==> Sectors.WellFormed(sectors[i].sector)
    }

    /** Whether one of this spinner's sectors is `sector` (what a pointer can point to). */
    predicate OnLayout(sector: Sectors.Sector)
    {
      exists i :: 0 <= i < |sectors| && sectors[i].sector == sector
    }

    /** The spinner's state as a value. */
    ghost function State(): SpinnerState
      reads this
      requires Valid()
    {
      SpinnerState(direction, SectorSizeFor(numberOfSectors), heldForNSpins, spinning,
                   rotation, waitBeforeMoving, lastMovedAt)
    }

    /**
     * A spinner over a factory-made layout, created at time `now` with a
     * sampled initial delay: not held, not spinning, not yet rotated.
     */
    constructor (direction: Direction, numberOfSectors: int, sectors: seq<SectorFactory.PlacedSector>,
                 initialDelay: int, now: int)
      requires numberOfSectors >= SectorFactory.MinSectors && |sectors| == numberOfSectors
      requires forall i :: 0 <= i < |sectors| ==> Sectors.WellFormed(sectors[i].sector)
      ensures Valid()
      ensures this.direction == direction && this.numberOfSectors == numberOfSectors && this.sectors == sectors
      ensures State() == SpinnerState(direction, SectorSizeFor(numberOfSectors), 0, false, 0, initialDelay, now)
    {
      this.direction := direction;
      this.numberOfSectors := numberOfSectors;
      this.sectors := sectors;
      heldForNSpins := 0;
      spinning := false;
      rotation := 0;
      waitBeforeMoving := initialDelay;
      lastMovedAt := now;
    }

    /** The angle of one sector, in degrees. */
    function SectorSize(): (size: int)
      requires Valid()
      ensures size == State().sectorSize
    {
      SectorSizeFor(numberOfSectors)
    }

    method TrySpin()
      requires Valid()
      modifies this
      ensures State() == AfterTrySpin(old(State()))
    {
      var held := heldForNSpins > 0;
      if !held {
        spinning := true;
      } else {
        heldForNSpins := heldForNSpins - 1;
      }
    }

    method StopSpinning()
      requires Valid()
      modifies this
      ensures State() == AfterStopSpinning(old(State()))
    {
      spinning := false;
    }

    method HoldForNSpins(numberOfSpins: int)
      requires Valid()
      modifies this
      ensures State() == AfterHoldForNSpins(old(State()), numberOfSpins)
    {
      heldForNSpins := numberOfSpins;
    }

    method Nudge()
      requires Valid()
      modifies this
      ensures State() == AfterNudge(old(State()))
    {
      var step := match direction
        case Clockwise => SectorSize()
        case AntiClockwise => -SectorSize();
      rotation := rotation + step;
    }

    /** One tick of the frame loop, at time `now` (milliseconds). */
    method MaybeMove(now: int)
      requires Valid()
      modifies this
      ensures State() == AfterMaybeMove(old(State()), now)
    {
      var nextMoveMin := lastMovedAt + waitBeforeMoving;
      if spinning && nextMoveMin <= now {
        rotation := rotation + SectorSize();
        lastMovedAt := now;
      }
    }
  }

  /** Why a spinner cannot start up: no sectors at all, or the factory refused. */
  datatype ReadyError = DivideByZero | Factory(error: SectorFactory.FactoryError)

  /**
   * A spinner's start-up: compute the sector size, ask the factory for the
   * layout and take the sampled delay.  Zero sectors fail on the division;
   * any other count below ten is refused by the factory.
   */
  method Ready(direction: Direction, numberOfSectors: int,
               chances: seq<real>, order: seq<nat>, countDraws: seq<nat>,
               increasePercentage: real, decreasePercentage: real,
               initialDelay: int, now: int)
    returns (r: Result<Spinner, ReadyError>)
    requires numberOfSectors >= SectorFactory.MinSectors ==>
      SectorFactory.RandomnessFor(numberOfSectors, chances, order, countDraws)
    ensures r.Failure? <==> numberOfSectors < SectorFactory.MinSectors
    ensures r.Failure? ==> r.error == if numberOfSectors == 0 then DivideByZero else Factory(SectorFactory.NotSupported)
    ensures r.Success? ==> fresh(r.value) && r.value.Valid() && r.value.direction == direction
    ensures r.Success? ==> r.value.State() == SpinnerState(direction, SectorSizeFor(numberOfSectors), 0, false, 0, initialDelay, now)
    ensures r.Success? ==>
      var planned := SectorFactory.Shuffled(SectorFactory.Plan(numberOfSectors, SectorFactory.MaxValueSector, chances), order);
      && r.value.numberOfSectors == numberOfSectors
      && SectorFactory.NoNullValues(planned)
      && r.value.sectors == SectorFactory.Layout(planned, SectorSizeFor(numberOfSectors), countDraws,
                                                 increasePercentage, decreasePercentage)
    ensures r.Success? ==> forall v :: 1 <= v <= SectorFactory.MaxValueSector ==>
      SectorFactory.ExactlyOnce(SectorFactory.Faces(r.value.sectors), Sectors.Value(v))
  {
    if numberOfSectors == 0 {
      return Failure(DivideByZero);
    }
    var created := SectorFactory.CreateSectors(numberOfSectors, SectorSizeFor(numberOfSectors),
                                               chances, order, countDraws,
                                               increasePercentage, decreasePercentage);
    if created.Failure? {
      return Failure(Factory(created.error));
    }
    var spinner := new Spinner(direction, numberOfSectors, created.value, initialDelay, now);
    r := Success(spinner);
  }
}
