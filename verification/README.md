# UnreelGame reel engine, modelled in Dafny

UnreelGame is a slot-machine game built on Godot. Each reel is a spinner divided into sectors:
- six value sectors, faces 1 to 6;
- the rest logic sectors: nudge, hold, faster and slower.

The HUD's spin button toggles every reel between spinning and stopped. A stopped reel looks at the sector its pointer points to:
- a speed sector runs its logic at once;
- a nudge or hold sector adds its count to the reel's nudges or holds available.

Clicking the reel then runs a nudge or hold sector's logic.

This project models the engine behind that:
- the sector factory that lays out a spinner (`sector_factory.dfy`);
- the spinner's state machine (`spinner.dfy`);
- the logic sectors' effects (`logic_sectors.dfy`);
- the reel's handlers (`reel.dfy`);
- the main scene's toggle broadcast (`main.dfy`).

`sectors.dfy` holds the sector kinds as one sum type; `wrappers.dfy` holds `Option`/`Result`.

Shape of the model:
- **Classes for state.** `Spinners.Spinner`, `Reels.Reel` and `MainScene.MainNode` are classes whose fields the methods update.
- **Specified by pure functions.** Each method's postcondition ties the new state (`State()`, `Snapshot()`) to a pure step function of the old state: `AfterTrySpin`, `AfterStopSpinning`, `AfterInputEvent`, and so on.
- **Properties as lemmas.** The game's properties are proved as lemmas about those step functions.
- **Randomness as inputs.** The factory takes its random draws as inputs:
  - one chance in [0, 1) per logic slot;
  - the shuffle's order, a permutation;
  - one integer draw per slot, from which `RandiRange` picks a count.
- **Clock and pointer as arguments.** The clock is the `now` argument of `MaybeMove`. The pointer's sector is an argument of the reel's stop and click handlers.

## Model

| member | source | states |
|---|---|---|
| Sectors.IsOptional | scenes/spinners/sectors/logicSectors/BaseLogicSector.cs:13 | Nudge and hold sectors are optional logic. Speed sectors are the only mandatory kind, since SpeedAdjustmentSector overrides IsOptional to false. |
| SectorFactory.LogicSectorTypeToCreate | scenes/spinners/sectors/SectorFactory.cs:93-100 | The chance picks a logic kind, never a value sector. Each quartile of [0, 1) maps to exactly one kind: nudge, hold, faster, slower, in that order. |
| SectorFactory.RandiRange | scenes/spinners/sectors/SectorFactory.cs:120 | The inclusive random range always yields a count between its bounds. |
| SectorFactory.CreateSectorType | scenes/spinners/sectors/SectorFactory.cs:102-142 | A value entry without a face fails with InvalidOperation, and nothing else fails. A value entry becomes that face. Nudge and hold entries get a count in 1..2. The faster and slower kinds carry their own percentage. |
| SectorFactory.ShuffledIsPermutation | scenes/spinners/sectors/SectorFactory.cs:90 | Reordering the plan by any permutation keeps its multiset of entries. |
| SectorFactory.GetSectorsToCreate | scenes/spinners/sectors/SectorFactory.cs:77-91 | The two loops build faces 1..max in order, then one logic entry per chance. The result is that list in the shuffle's order. |
| SectorFactory.PlannedContents | scenes/spinners/sectors/SectorFactory.cs:81-88 | The shuffled plan has the same multiset as the unshuffled one. Every face 1..6 occurs exactly once. Only value entries carry a value. Exactly n-6 entries are logic entries. |
| SectorFactory.LayoutSlots | scenes/spinners/sectors/SectorFactory.cs:48-54 | Slot i spans [i·size, i·size+size), and consecutive slots touch. |
| SectorFactory.LayoutFaces | scenes/spinners/sectors/SectorFactory.cs:43-56 | The created layout has each face once. Every sector is well formed. Speed sectors carry one of the two percentages. n-6 sectors are logic sectors. |
| SectorFactory.CreateSectors | scenes/spinners/sectors/SectorFactory.cs:38-57 | Fewer than 10 sectors fail with NotSupported, and 10 or more succeed. On success the layout is the shuffled plan, one sector per slot, and every property of LayoutSlots and LayoutFaces holds of it. |
| Spinners.SectorSizeFor | scenes/spinners/Spinner.cs:42 | The sector size is the largest whole angle with n·size ≤ 360. |
| Spinners.ElevenSectorsLeaveAGap | scenes/spinners/Spinner.cs:42 | With 11 sectors the integer division leaves 8 degrees of the circle uncovered. |
| Spinners.SlicesWithinCircle | scenes/spinners/Spinner.cs:42 | Every slot of a layout lies inside [0, 360]. |
| Spinners.TrySpinStartsUnlessHeld | scenes/spinners/Spinner.cs:88-92 | TrySpin starts a spinner exactly when it holds no spins, and then changes nothing but the flag. Otherwise it uses up one held spin and changes nothing else. |
| Spinners.TrySpinsWhileHeld | scenes/spinners/Spinner.cs:88-92 | Up to `held` TrySpin calls only count the held spins down. |
| Spinners.HoldForNSpinsSuppressesSpins | scenes/spinners/Spinner.cs:99 | After HoldForNSpins(n) on a stopped spinner, the next n TrySpin calls leave it stopped, with n-k held. Call n+1 starts it with nothing held. |
| Spinners.HoldForNSpinsOverwrites | scenes/spinners/Spinner.cs:99 | Holding overwrites the held count, and does not accumulate. |
| Spinners.StopSpinningOnlyStops | scenes/spinners/Spinner.cs:94-97 | StopSpinning clears the spinning flag and nothing else. |
| Spinners.NudgesAdvance | scenes/spinners/Spinner.cs:78-86 | k nudges turn the spinner by exactly k sectors in its direction, spinning or not, and change nothing else. |
| Spinners.MaybeMoveAtMostOneStep | scenes/spinners/Spinner.cs:103-112 | One tick turns the spinner by nothing or by exactly one sector, and a tick that moves records its time. Only the rotation and the timestamp change, and a stopped spinner never moves. With a positive delay, a second tick at the same time does not move again: there is no catch-up. |
| Spinners.TicksAtMostOneStepEach | scenes/spinners/Spinner.cs:103-112 | Over any run of ticks the rotation grows by a whole number of sectors, at most one per tick. A stopped spinner never moves. Ticks touch only the rotation and the timestamp. |
| Spinners.NoStepBeforeDelay | scenes/spinners/Spinner.cs:106-107 | Ticks that all come before the last step's time plus the delay leave the spinner exactly as it was. |
| Spinners.DueStepIsTaken | scenes/spinners/Spinner.cs:106-110 | A spinning spinner ticked once the delay since its last step has elapsed turns by one sector and records the tick's time. |
| Spinners.Spinner.constructor | scenes/spinners/Spinner.cs:53-57 | A new spinner is not held, not spinning and not rotated, with its sampled delay and creation time. |
| Spinners.Spinner.SectorSize | scenes/spinners/Spinner.cs:42 | The sector size of the spinner's state. |
| Spinners.Spinner.TrySpin | scenes/spinners/Spinner.cs:88-92 | The new state is AfterTrySpin of the old one. |
| Spinners.Spinner.StopSpinning | scenes/spinners/Spinner.cs:94-97 | The new state is AfterStopSpinning of the old one. |
| Spinners.Spinner.HoldForNSpins | scenes/spinners/Spinner.cs:99 | The new state is AfterHoldForNSpins of the old one. |
| Spinners.Spinner.Nudge | scenes/spinners/Spinner.cs:78-86 | The new state is AfterNudge of the old one. |
| Spinners.Spinner.MaybeMove | scenes/spinners/Spinner.cs:103-112 | The new state is AfterMaybeMove(old, now). |
| Spinners.Ready | scenes/spinners/Spinner.cs:61-70 | Zero sectors fail on the division, and 1..9 sectors are refused by the factory. Otherwise the result is a fresh, valid spinner in its initial state. It has the requested sector count, and its sectors are exactly the factory's layout of the shuffled plan, so each face 1..6 occurs once. |
| LogicSectors.Truncate | scenes/spinners/sectors/logicSectors/speedAdjustmentSector/SpeedAdjustmentSector.cs:27 | The `(long)` cast truncates toward zero, for both signs. |
| LogicSectors.ExecuteHoldLogic | scenes/spinners/sectors/logicSectors/holdSector/HoldSector.cs:18-21 | The spinner ends in the hold sector's Effect on its old state. |
| LogicSectors.ExecuteNudgeLogic | scenes/spinners/sectors/logicSectors/nudgeSector/NudgeSector.cs:18-21 | The spinner ends in the nudge sector's Effect on its old state. |
| LogicSectors.ExecuteSpeedAdjustmentLogic | scenes/spinners/sectors/logicSectors/speedAdjustmentSector/SpeedAdjustmentSector.cs:18-28 | The spinner ends in the speed sector's Effect: its delay is rescaled. |
| LogicSectors.ExecuteLogic | scenes/spinners/sectors/logicSectors/BaseLogicSector.cs:15-18 | Any logic sector's logic leaves the spinner in that sector's Effect. |
| LogicSectors.SpeedUpShortensDelay | scenes/spinners/sectors/logicSectors/speedAdjustmentSector/SpeedAdjustmentSector.cs:20-27 | A percentage in (0, 100] never lengthens a non-negative delay and never makes it negative. |
| LogicSectors.SlowDownLengthensDelay | scenes/spinners/sectors/logicSectors/speedAdjustmentSector/SpeedAdjustmentSector.cs:20-27 | A negative percentage never shortens a non-negative delay. |
| LogicSectors.ZeroPercentKeepsDelay | scenes/spinners/sectors/logicSectors/speedAdjustmentSector/SpeedAdjustmentSector.cs:20-27 | A zero percentage leaves the delay unchanged. |
| LogicSectors.EffectChangesOnlyItsField | scenes/spinners/sectors/logicSectors/BaseLogicSector.cs:15-18 | Each logic sector changes exactly one part of its spinner, and undoing that one change gives back the old state. A hold sets the held count to its own count. A nudge turns the spinner one sector in its direction. A speed sector rescales the delay. |
| LogicSectors.NudgeIgnoresItsCount | scenes/spinners/sectors/logicSectors/nudgeSector/NudgeSector.cs:15-21 | A nudge sector's effect is the same whatever its stored count. |
| LogicSectors.HoldOverwrites | scenes/spinners/sectors/logicSectors/holdSector/HoldSector.cs:18-21 | Running a hold sector sets the held count to its own count, whatever was held before. |
| LogicSectors.HoldKeepsSpinnerForNSpins | scenes/spinners/sectors/logicSectors/holdSector/HoldSector.cs:4-21 | A hold sector with count n keeps a stopped spinner stopped for the next n TrySpin calls, and the one after them starts it. |
| Reels.SelectionModesExclusive | scenes/reels/Reel.cs:105-115 | Enabling one selection mode disables the other, so the two are never on together. |
| Reels.ToggleFlipsSpinning | scenes/reels/Reel.cs:120-131 | Every toggle flips the reel's flag, so two toggles restore it. |
| Reels.ToggleWhenStoppedStartsSpin | scenes/reels/Reel.cs:122-127 | A toggle on a stopped reel asks the spinner to spin and zeroes both counters. It emits nothing. |
| Reels.ToggleWhenSpinningLands | scenes/reels/Reel.cs:128-130 | A toggle on a spinning reel stops its spinner and emits ReelLandedOn once, with the pointed sector. |
| Reels.StopResolution | scenes/reels/Reel.cs:135-154 | Every stop stops the spinner and emits the sector. Mandatory logic runs, with both counters kept. A nudge or hold adds its count to its own counter only. A value changes nothing else. |
| Reels.TogglingKeepsValid | scenes/reels/Reel.cs:120-154 | Starting, stopping and toggling each keep the counters non-negative, and keep at most one selection mode on. |
| Reels.ClickRules | scenes/reels/Reel.cs:72-97 | A click only ever changes the spinner. Holds are tried first, then nudges. It does nothing when not pressed, when nothing is pointed to, when both counters are zero, or when the sector is a value or speed sector. It also does nothing when a nudge or hold sector's counter is zero. |
| Reels.OptionalLogicWaitsForInput | scenes/reels/Reel.cs:141-151 | Landing on a nudge or hold sector never runs its logic: the spinner is only stopped. |
| Reels.NudgeClicksNeverRunOut | scenes/reels/Reel.cs:91-94 | k clicks on a nudge sector, with any nudge available, nudge the spinner k sectors: the counter is never spent. |
| Reels.Reel.constructor | scenes/reels/Reel.cs:21-38 | A new reel has no selection mode, no counts, is not spinning and has emitted nothing. |
| Reels.Reel.EnableHoldSelection | scenes/reels/Reel.cs:105-109 | The new state is AfterEnableHoldSelection of the old one, and the invariant holds. |
| Reels.Reel.EnableNudgeSelection | scenes/reels/Reel.cs:111-115 | The new state is AfterEnableNudgeSelection of the old one, and the invariant holds. |
| Reels.Reel.TrySpin | scenes/reels/Reel.cs:122-127 | The new state is AfterTrySpin of the old one, and the invariant holds. |
| Reels.Reel.StopSpinning | scenes/reels/Reel.cs:135-154 | The new state is AfterStopSpinning on the pointed sector, and the invariant holds. |
| Reels.Reel.ToggleSpin | scenes/reels/Reel.cs:120-131 | The new state is AfterToggleSpin of the old one, and the invariant holds. |
| Reels.Reel.InputEvent | scenes/reels/Reel.cs:72-97 | On a pointed sector of the reel's own spinner, the new state is AfterInputEvent of the old one; only the spinner may change. |
| MainScene.BroadcastMatchesReelToggle | scenes/Main.cs:13-21 | While a reel's flag agrees with the scene's flag, the broadcast does to the reel what its own toggle does, except that the reel's flag is left alone. |
| MainScene.ToggleTwiceSpinsThenLands | scenes/Main.cs:13-21 | Two broadcasts start a reel, then stop it with one ReelLandedOn for its pointed sector. |
| MainScene.MainNode.constructor | scenes/Main.cs:9-12 | The scene starts not spinning over its distinct, valid reels. |
| MainScene.MainNode.ToggleSpin | scenes/Main.cs:13-21 | The scene's flag is negated. Each reel then either starts, or stops on its pointed sector, according to the new flag. The reels stay valid and distinct. |

## Left out

- Geometry and drawing are not modelled: the arc polygons, labels, radius and collision shapes (`SectorFactory.cs:59-75`, `BaseSector.cs`). A placed sector keeps only its kind and its angular range in degrees.
- Godot wiring is not modelled: scene instancing, node lookup, signal connections and `_Process`. The frame loop is a sequence of `MaybeMove(now)` calls (`Spinners.Ticks`).
- The pointer is not modelled: `Pointer.PointsTo` comes from a physics collision. The sector it points to is an argument of `Reel.StopSpinning`, `Reel.ToggleSpin` and `Reel.InputEvent`. It is required to be one of the spinner's own sectors wherever the code dereferences it. Pointer.cs is not part of this model.
- The HUD, ClickableArea2D and ValueSector are not part of this model beyond the value a value sector carries.
- The random number generator and the clock are inputs.
  - The factory's chances, shuffle order and count draws are arguments.
  - The spinner's initial delay (`RandfRange(min*1000, max*1000)`) is an argument of `Spinners.Ready`, and its range is not modelled.
  - `now` is an argument of `MaybeMove`.
- `SectorFactory.GetSectorsToCreate` takes the shuffle order as a permutation. `OrderBy(Randf())` can produce any permutation, but the model does not capture how likely each one is.
- Rotation is in whole degrees, so floating-point angles are not modelled. `MaybeMove` adds `Deg2Rad(SectorSize)` to `Rotation`, which is in radians, while `Nudge` adds `SectorSize` itself. The model treats both as one sector in degrees, so the unit mix-up in `Nudge` is not reproduced.
- `MaybeMove` always turns in the positive direction, whatever the spinner's direction; the model keeps that.
- Spinners.SectorSizeFor: a negative sector count is not modelled beyond the sign of the result, because the factory refuses such layouts.
- LogicSectors.AdjustedDelay: the arithmetic is exact on reals, so 32-bit float rounding of `currentSpeed * decimalAdjustment` is not modelled. The 64-bit range of `long` is not modelled either.
- The default branches of the direction switch (`Spinner.cs:84`) and of the sector-type switch (`SectorFactory.cs:109`) are left out: every enum value is handled.
- Win detection, the score and any economy beyond the reel's own counters are not modelled: the code has none yet, only TODO comments.
- Reels.ClickRules: the code's own behaviour is followed:
  - a click is not gated on a selection mode (`canBePressed` is never read);
  - a hold click runs `HoldForNSpins` with the sector's own count;
  - no click decrements `nudgesAvailable` or `holdsAvailable`.
- The counters live in the reel: each `Reel` keeps its own `nudgesAvailable`/`holdsAvailable`, as the code does.
- Several call sites do not compile as written. The model resolves each one:
  - `Spinner.cs:65` calls `CreateSectors` with four arguments, but `SectorFactory.cs:38` takes five, the first being `reelNo`. `CreateSector` never reads `reelNo`, so the model drops it.
  - `SectorFactory.cs:115,122,129` pass a `label` that the sector `Instance` methods do not accept. `SectorFactory.cs:135` and `:141` pass one to `BaseSector.Instance`, which takes three parameters (`BaseSector.cs:19`). Labels are left out.
  - `Reel.cs:150-151` read `Nudges` and `Holds`, which are not declared. The model reads the sector's stored `_nudges`/`_holdFor`.
  - `NudgeSector.ExecuteLogic` is `protected override` against a public abstract method. The model treats it as public, as the click handler's call needs.
  - `Main.cs:18-19` call `Reel.TrySpin` and `Reel.StopSpinning`, which the reel does not expose publicly (it has only a private `StopSpinning`). The model gives `Reel` the two halves of its toggle handler as methods: `TrySpin` is the start branch, `StopSpinning` the stop branch. Main calls them without touching the reel's own flag.
- `Reel.StopSpinning` when the pointer points to nothing (a null dereference in the code) is not modelled. The model requires a pointed sector.
