/**
 * SectorFactory: builds the sector layout of one spinner.  Six value sectors
 * (faces 1..6) and `numberOfSectors - 6` logic sectors picked by quartile are
 * shuffled, and slot i is given the angular range
 * [i * sectorSize, i * sectorSize + sectorSize).
 *
 * The random number generator is an input: one chance in [0, 1) per logic
 * slot, the order the shuffle puts the planned entries in (a permutation),
 * and one integer draw per slot from which RandiRange picks a count.
 */
module SectorFactory {
  import opened Wrappers
  import Sectors

  /** The kinds of sector the factory can be asked for. */
  datatype SectorType = Value | Nudge | Hold | IncreaseSpeed | DecreaseSpeed

  /** One planned entry: a kind and, for a value sector, its face (`int?`). */
  datatype Planned = Planned(kind: SectorType, value: Option<int>)

  /** NotSupportedException and InvalidOperationException. */
  datatype FactoryError = NotSupported | InvalidOperation

  /** A created sector with the angular range it was drawn over, in degrees. */
  datatype PlacedSector = PlacedSector(sector: Sectors.Sector, angleFrom: int, angleTo: int)

  /** Fewer sectors than this are rejected. */
  const MinSectors: int := 10

  /** The faces 1..MaxValueSector each get exactly one value sector. */
  const MaxValueSector: nat := 6

  // ---------------------------------------------------------------------
  // Pure parts: picking a logic kind, drawing a count, creating one sector
  // ---------------------------------------------------------------------

  /** The logic kind a chance in [0, 1) selects: one quartile per kind. */
  function LogicSectorTypeToCreate(chance: real): (t: SectorType)
    ensures t != Value
    ensures t == Nudge <==> chance < 0.25
    ensures t == Hold <==> 0.25 <= chance < 0.5
    ensures t == IncreaseSpeed <==> 0.5 <= chance < 0.75
    ensures t == DecreaseSpeed <==> 0.75 <= chance
  {
    if chance < 0.25 then Nudge
    else if chance < 0.50 then Hold
    else if chance < 0.75 then IncreaseSpeed
    else DecreaseSpeed
  }

  /** The generator's inclusive integer range, fed by an arbitrary draw. */
  function RandiRange(from: int, to: int, draw: nat): (r: int)
    requires from <= to
    ensures from <= r <= to
  {
    from + draw % (to - from + 1)
  }

  /**
   * CreateSectorType: the sector a planned entry becomes.  A value entry
   * without a face fails; nudge and hold sectors draw a count in 1..2; the
   * two speed kinds take the percentage configured for their scene.
   */
  function CreateSectorType(sectorType: SectorType, value: Option<int>, countDraw: nat,
                            increasePercentage: real, decreasePercentage: real)
    : (r: Result<Sectors.Sector, FactoryError>)
    ensures r.Failure? <==> sectorType == Value && value.None?
    ensures r.Failure? ==> r.error == InvalidOperation
    ensures sectorType == Value && value.Some? ==> r == Success(Sectors.Value(value.value))
    ensures sectorType == Nudge ==> r.Success? && r.value.Nudge? && 1 <= r.value.nudges <= 2
    ensures sectorType == Hold ==> r.Success? && r.value.Hold? && 1 <= r.value.holdFor <= 2
    ensures sectorType == IncreaseSpeed ==> r == Success(Sectors.SpeedAdjustment(increasePercentage))
    ensures sectorType == DecreaseSpeed ==> r == Success(Sectors.SpeedAdjustment(decreasePercentage))
  {
    match sectorType
    case Value =>
      if value.Some? then Success(Sectors.Value(value.value)) else Failure(InvalidOperation)
    case Nudge => Success(Sectors.Nudge(RandiRange(1, 2, countDraw)))
    case Hold => Success(Sectors.Hold(RandiRange(1, 2, countDraw)))
    case IncreaseSpeed => Success(Sectors.SpeedAdjustment(increasePercentage))
    case DecreaseSpeed => Success(Sectors.SpeedAdjustment(decreasePercentage))
  }

  // ---------------------------------------------------------------------
  // The plan before and after shuffling
  // ---------------------------------------------------------------------

  /** How many logic entries the plan gets (the second loop's trip count). */
  function LogicSlots(numberOfSectors: int, maxValueSector: nat): nat
  {
    if numberOfSectors > maxValueSector then numberOfSectors - maxValueSector else 0
  }

  /** The value entries, faces 1..count in order. */
  function ValuePlan(count: nat): seq<Planned>
  {
    seq(count, s => Planned(Value, Some(s + 1)))
  }

  /** The first `count` logic entries, one per chance, none with a value. */
  function LogicPlan(chances: seq<real>, count: nat): seq<Planned>
    requires count <= |chances|
  {
    seq(count, l requires 0 <= l < count => Planned(LogicSectorTypeToCreate(chances[l]), None))
  }

  /** The list GetSectorsToCreate builds before shuffling it. */
  function Plan(numberOfSectors: int, maxValueSector: nat, chances: seq<real>): seq<Planned>
    requires LogicSlots(numberOfSectors, maxValueSector) <= |chances|
  {
    ValuePlan(maxValueSector) + LogicPlan(chances, LogicSlots(numberOfSectors, maxValueSector))
  }

  /** `order` lists every index below n exactly once. */
  predicate IsPermutation(order: seq<nat>, n: nat)
  {
    && |order| == n
    && (forall i :: 0 <= i < n ==> order[i] < n)
    && (forall i, j :: 0 <= i < j < n ==> order[i] != order[j])
    && (forall k :: 0 <= k < n ==> k in order)
  }

  /** The entries of s in the order a shuffle chose: entry i is s[order[i]]. */
  function Shuffled<T>(s: seq<T>, order: seq<nat>): seq<T>
    requires IsPermutation(order, |s|)
  {
    seq(|s|, i requires 0 <= i < |s| => s[order[i]])
  }

  /** Entry i of `order` with entry k removed. */
  lemma DroppedAt(order: seq<nat>, k: nat, rest: seq<nat>, i: nat)
    requires k < |order| && rest == order[..k] + order[k + 1..] && i < |rest|
    ensures rest[i] == if i < k then order[i] else order[i + 1]
  {
  }

  /** Dropping the entry that names the last index leaves indices below n - 1. */
  lemma DropLastBounded(order: seq<nat>, n: nat, k: nat, rest: seq<nat>)
    requires n > 0 && IsPermutation(order, n) && k < n && order[k] == n - 1
    requires rest == order[..k] + order[k + 1..]
    ensures forall i :: 0 <= i < n - 1 ==> rest[i] < n - 1
  {
    forall i | 0 <= i < n - 1
      ensures rest[i] < n - 1
    {
      DroppedAt(order, k, rest, i);
      var i' := if i < k then i else i + 1;
      assert order[i'] != order[k];
    }
  }

  /** Dropping an entry keeps the rest pairwise distinct. */
  lemma DropLastInjective(order: seq<nat>, n: nat, k: nat, rest: seq<nat>)
    requires n > 0 && IsPermutation(order, n) && k < n
    requires rest == order[..k] + order[k + 1..]
    ensures forall i, j :: 0 <= i < j < n - 1 ==> rest[i] != rest[j]
  {
    forall i, j | 0 <= i < j < n - 1
      ensures rest[i] != rest[j]
    {
      DroppedAt(order, k, rest, i);
      DroppedAt(order, k, rest, j);
      var i' := if i < k then i else i + 1;
      var j' := if j < k then j else j + 1;
      assert i' < j';
    }
  }

  /** Dropping the entry that names the last index keeps every other index. */
  lemma DropLastCovers(order: seq<nat>, n: nat, k: nat, rest: seq<nat>)
    requires n > 0 && IsPermutation(order, n) && k < n && order[k] == n - 1
    requires rest == order[..k] + order[k + 1..]
    ensures forall m :: 0 <= m < n - 1 ==> m in rest
  {
    forall m | 0 <= m < n - 1
      ensures m in rest
    {
      assert m in order;
      var i :| 0 <= i < n && order[i] == m;
      var i' := if i < k then i else i - 1;
      DroppedAt(order, k, rest, i');
    }
  }

  /** Dropping the entry that names the last index leaves a permutation of the rest. */
  lemma DropLast(order: seq<nat>, n: nat, k: nat)
    requires n > 0 && IsPermutation(order, n) && k < n && order[k] == n - 1
    ensures IsPermutation(order[..k] + order[k + 1..], n - 1)
  {
    var rest := order[..k] + order[k + 1..];
    DropLastBounded(order, n, k, rest);
    DropLastInjective(order, n, k, rest);
    DropLastCovers(order, n, k, rest);
  }

  /** A permutation of 0..n-1 names the last index somewhere. */
  lemma IndexOfLast(order: seq<nat>, n: nat) returns (k: nat)
    requires n > 0 && IsPermutation(order, n)
    ensures k < n && order[k] == n - 1
  {
    assert n - 1 in order;
    k :| 0 <= k < n && order[k] == n - 1;
  }

  /** Inserting x anywhere into a sequence adds x once to its multiset. */
  lemma InsertKeepsMultiset<T>(inner: seq<T>, front: seq<T>, x: T, k: nat)
    requires k <= |inner| && multiset(inner) == multiset(front)
    ensures multiset(inner[..k] + [x] + inner[k..]) == multiset(front + [x])
  {
    assert inner[..k] + inner[k..] == inner;
  }

  /** Shuffling by a permutation keeps every entry, as often as it occurred. */
  lemma {:induction false} ShuffledIsPermutation<T>(s: seq<T>, order: seq<nat>)
    requires IsPermutation(order, |s|)
    ensures multiset(Shuffled(s, order)) == multiset(s)
  {
    var n := |s|;
    if n > 0 {
      var k := IndexOfLast(order, n);
      var rest := order[..k] + order[k + 1..];
      DropLast(order, n, k);
      var front := s[..n - 1];
      ShuffledIsPermutation(front, rest);
      ShuffledSplit(s, order, k);
      InsertKeepsMultiset(Shuffled(front, rest), front, s[n - 1], k);
      assert front + [s[n - 1]] == s;
    }
  }

  /** Shuffling s is shuffling all but its last entry, with that entry put in slot k. */
  lemma ShuffledSplit<T>(s: seq<T>, order: seq<nat>, k: nat)
    requires |s| > 0 && IsPermutation(order, |s|) && k < |s| && order[k] == |s| - 1
    ensures IsPermutation(order[..k] + order[k + 1..], |s| - 1)
    ensures var inner := Shuffled(s[..|s| - 1], order[..k] + order[k + 1..]);
      Shuffled(s, order) == inner[..k] + [s[|s| - 1]] + inner[k..]
  {
    var n := |s|;
    DropLast(order, n, k);
    var rest := order[..k] + order[k + 1..];
    var inner := Shuffled(s[..n - 1], rest);
    var joined := inner[..k] + [s[n - 1]] + inner[k..];
    assert |joined| == n;
    forall i | 0 <= i < n
      ensures Shuffled(s, order)[i] == joined[i]
    {
      if i < k {
        assert rest[i] == order[i] && order[i] != n - 1;
      } else if i > k {
        assert rest[i - 1] == order[i] && order[i] != n - 1;
      }
    }
  }

  // ---------------------------------------------------------------------
  // Imperative parts: GetSectorsToCreate and CreateSectors
  // ---------------------------------------------------------------------

  /**
   * GetSectorsToCreate: one value entry per face 1..maxValueSector, then one
   * logic entry per remaining slot, then the shuffle.
   */
  method GetSectorsToCreate(numberOfSectors: int, maxValueSector: nat, chances: seq<real>, order: seq<nat>)
    returns (planned: seq<Planned>)
    requires LogicSlots(numberOfSectors, maxValueSector) <= |chances|
    requires IsPermutation(order, maxValueSector + LogicSlots(numberOfSectors, maxValueSector))
    ensures planned == Shuffled(Plan(numberOfSectors, maxValueSector, chances), order)
  {
    var sectorsToCreate: seq<Planned> := [];
    for s := 1 to maxValueSector + 1
      invariant sectorsToCreate == ValuePlan(s - 1)
    {
      sectorsToCreate := sectorsToCreate + [Planned(Value, Some(s))];
    }
    var logicSlots := LogicSlots(numberOfSectors, maxValueSector);
    for l := 0 to logicSlots
      invariant sectorsToCreate == ValuePlan(maxValueSector) + LogicPlan(chances, l)
    {
      sectorsToCreate := sectorsToCreate + [Planned(LogicSectorTypeToCreate(chances[l]), None)];
    }
    planned := Shuffled(sectorsToCreate, order);
  }

  /** Every value entry of the plan carries a face. */
  predicate NoNullValues(planned: seq<Planned>)
  {
    forall i :: 0 <= i < |planned| ==> planned[i].kind == Value ==> planned[i].value.Some?
  }

  /** The layout CreateSectors builds from a shuffled plan: sector i over slot i. */
  function Layout(planned: seq<Planned>, sectorSize: int, countDraws: seq<nat>,
                  increasePercentage: real, decreasePercentage: real): seq<PlacedSector>
    requires |planned| <= |countDraws| && NoNullValues(planned)
  {
    seq(|planned|, i requires 0 <= i < |planned| =>
      PlacedSector(
        CreateSectorType(planned[i].kind, planned[i].value, countDraws[i],
                         increasePercentage, decreasePercentage).value,
        sectorSize * i, sectorSize * i + sectorSize))
  }

  /** The draws CreateSectors consumes for a layout of n sectors. */
  predicate RandomnessFor(numberOfSectors: int, chances: seq<real>, order: seq<nat>, countDraws: seq<nat>)
    requires numberOfSectors >= MinSectors
  {
    && numberOfSectors - MaxValueSector <= |chances|
    && IsPermutation(order, numberOfSectors)
    && numberOfSectors <= |countDraws|
  }

  /** The sector in each slot, in slot order. */
  function Faces(layout: seq<PlacedSector>): seq<Sectors.Sector>
  {
    seq(|layout|, i requires 0 <= i < |layout| => layout[i].sector)
  }

  /** Which slots hold a logic sector. */
  function LogicFlags(layout: seq<PlacedSector>): seq<bool>
  {
    seq(|layout|, i requires 0 <= i < |layout| => Sectors.IsLogic(layout[i].sector))
  }

  /** Which planned entries are logic entries. */
  function PlannedLogicFlags(planned: seq<Planned>): seq<bool>
  {
    seq(|planned|, i requires 0 <= i < |planned| => planned[i].kind != Value)
  }

  /** The number of true flags. */
  function CountTrue(flags: seq<bool>): nat
  {
    multiset(flags)[true]
  }

  /** x occurs at exactly one index of s. */
  predicate ExactlyOnce<T(==)>(s: seq<T>, x: T)
  {
    exists i :: 0 <= i < |s| && s[i] == x && forall j :: 0 <= j < |s| && s[j] == x ==> j == i
  }

  /** A run of k equal flags holds k of that flag and none of the other. */
  lemma {:induction false} RepeatedFlags(b: bool, k: nat)
    ensures multiset(seq(k, _ => b))[b] == k
    ensures multiset(seq(k, _ => b))[!b] == 0
  {
    if k > 0 {
      RepeatedFlags(b, k - 1);
      assert seq(k, _ => b) == seq(k - 1, _ => b) + [b];
    }
  }

  /**
   * What a shuffled plan of n entries holds: the value entries are exactly
   * the faces 1..6, each once; every other entry is a logic entry without a
   * value, and there are n - 6 of them.
   */
  predicate WellPlanned(planned: seq<Planned>, numberOfSectors: int)
  {
    && |planned| == numberOfSectors
    && NoNullValues(planned)
    && (forall i :: 0 <= i < |planned| && planned[i].kind == Value ==>
          1 <= planned[i].value.value <= MaxValueSector)
    && (forall i :: 0 <= i < |planned| && planned[i].kind != Value ==> planned[i].value.None?)
    && (forall v :: 1 <= v <= MaxValueSector ==> ExactlyOnce(planned, Planned(Value, Some(v))))
    && CountTrue(PlannedLogicFlags(planned)) == numberOfSectors - MaxValueSector
  }

  /** The unshuffled plan: faces 1..6 in the first six entries, logic entries without a value after them. */
  lemma PlanShape(numberOfSectors: int, chances: seq<real>)
    requires numberOfSectors >= MinSectors && numberOfSectors - MaxValueSector <= |chances|
    ensures var plan := Plan(numberOfSectors, MaxValueSector, chances);
      && |plan| == numberOfSectors
      && (forall k :: 0 <= k < MaxValueSector ==> plan[k] == Planned(Value, Some(k + 1)))
      && (forall k :: MaxValueSector <= k < |plan| ==> plan[k].kind != Value && plan[k].value.None?)
  {
  }

  /** An entry that occurs at one index only still occurs at one index only after a shuffle. */
  lemma ShuffledUnique<T>(s: seq<T>, order: seq<nat>, at: nat, x: T)
    requires IsPermutation(order, |s|) && at < |s| && s[at] == x
    requires forall k :: 0 <= k < |s| && s[k] == x ==> k == at
    ensures ExactlyOnce(Shuffled(s, order), x)
  {
    var shuffled := Shuffled(s, order);
    assert at in order;
    var i :| 0 <= i < |order| && order[i] == at;
    assert shuffled[i] == x;
    forall j | 0 <= j < |shuffled| && shuffled[j] == x
      ensures j == i
    {
      assert s[order[j]] == x;
      assert order[j] == order[i];
    }
  }

  /** The shuffled plan holds as many logic entries as the plan has logic slots. */
  lemma ShuffledLogicCount(numberOfSectors: int, chances: seq<real>, order: seq<nat>)
    requires numberOfSectors >= MinSectors && numberOfSectors - MaxValueSector <= |chances|
    requires IsPermutation(order, numberOfSectors)
    ensures CountTrue(PlannedLogicFlags(Shuffled(Plan(numberOfSectors, MaxValueSector, chances), order)))
      == numberOfSectors - MaxValueSector
  {
    var plan := Plan(numberOfSectors, MaxValueSector, chances);
    PlanShape(numberOfSectors, chances);
    var slots := LogicSlots(numberOfSectors, MaxValueSector);
    var flags := PlannedLogicFlags(plan);
    assert PlannedLogicFlags(Shuffled(plan, order)) == Shuffled(flags, order);
    ShuffledIsPermutation(flags, order);
    assert flags == seq(MaxValueSector, _ => false) + seq(slots, _ => true);
    RepeatedFlags(false, MaxValueSector);
    RepeatedFlags(true, slots);
  }

  /** The list GetSectorsToCreate returns is a permutation of the plan and well planned. */
  lemma PlannedContents(numberOfSectors: int, chances: seq<real>, order: seq<nat>)
    requires numberOfSectors >= MinSectors
    requires numberOfSectors - MaxValueSector <= |chances| && IsPermutation(order, numberOfSectors)
    ensures var planned := Shuffled(Plan(numberOfSectors, MaxValueSector, chances), order);
      && multiset(planned) == multiset(Plan(numberOfSectors, MaxValueSector, chances))
      && WellPlanned(planned, numberOfSectors)
  {
    var plan := Plan(numberOfSectors, MaxValueSector, chances);
    PlanShape(numberOfSectors, chances);
    var planned := Shuffled(plan, order);
    ShuffledIsPermutation(plan, order);
    forall v | 1 <= v <= MaxValueSector
      ensures ExactlyOnce(planned, Planned(Value, Some(v)))
    {
      ShuffledUnique(plan, order, v - 1, Planned(Value, Some(v)));
    }
    ShuffledLogicCount(numberOfSectors, chances, order);
  }

  /** Slot i of a layout spans [size * i, size * i + size), so slots are contiguous. */
  lemma LayoutSlots(planned: seq<Planned>, sectorSize: int, countDraws: seq<nat>,
                    increasePercentage: real, decreasePercentage: real)
    requires |planned| <= |countDraws| && NoNullValues(planned)
    ensures var layout := Layout(planned, sectorSize, countDraws, increasePercentage, decreasePercentage);
      && |layout| == |planned|
      && (forall i :: 0 <= i < |layout| ==>
            layout[i].angleFrom == sectorSize * i && layout[i].angleTo == layout[i].angleFrom + sectorSize)
      && (forall i :: 0 <= i < |layout| - 1 ==> layout[i].angleTo == layout[i + 1].angleFrom)
  {
    var layout := Layout(planned, sectorSize, countDraws, increasePercentage, decreasePercentage);
    forall i | 0 <= i < |layout| - 1
      ensures layout[i].angleTo == layout[i + 1].angleFrom
    {
      assert sectorSize * i + sectorSize == sectorSize * (i + 1);
    }
  }

  /**
   * The sectors of a layout built from a well-planned list: one value sector
   * per face, well-formed counts, the configured speed percentages, and
   * n - 6 logic sectors.
   */
  lemma LayoutFaces(planned: seq<Planned>, numberOfSectors: int, sectorSize: int, countDraws: seq<nat>,
                    increasePercentage: real, decreasePercentage: real)
    requires WellPlanned(planned, numberOfSectors) && numberOfSectors <= |countDraws|
    ensures var layout := Layout(planned, sectorSize, countDraws, increasePercentage, decreasePercentage);
      && (forall v :: 1 <= v <= MaxValueSector ==> ExactlyOnce(Faces(layout), Sectors.Value(v)))
      && (forall i :: 0 <= i < |layout| ==> Sectors.WellFormed(layout[i].sector))
      && (forall i :: 0 <= i < |layout| && layout[i].sector.SpeedAdjustment? ==>
            layout[i].sector.percentage == increasePercentage ||
            layout[i].sector.percentage == decreasePercentage)
      && CountTrue(LogicFlags(layout)) == numberOfSectors - MaxValueSector
  {
    var layout := Layout(planned, sectorSize, countDraws, increasePercentage, decreasePercentage);
    var faces := Faces(layout);
    forall v | 1 <= v <= MaxValueSector
      ensures ExactlyOnce(faces, Sectors.Value(v))
    {
      var x := Planned(Value, Some(v));
      assert ExactlyOnce(planned, x);
      var i :| 0 <= i < |planned| && planned[i] == x &&
        forall j :: 0 <= j < |planned| && planned[j] == x ==> j == i;
      assert faces[i] == Sectors.Value(v);
      forall j | 0 <= j < |faces| && faces[j] == Sectors.Value(v)
        ensures j == i
      {
        assert planned[j] == x;
      }
    }
    assert LogicFlags(layout) == PlannedLogicFlags(planned);
  }

  /**
   * CreateSectors: rejects fewer than MinSectors sectors, and otherwise fills
   * one array slot per sector from the shuffled plan.  The two speed
   * percentages are the ones configured on the speed sectors' scenes.
   */
  method CreateSectors(numberOfSectors: int, sectorSize: int,
                       chances: seq<real>, order: seq<nat>, countDraws: seq<nat>,
                       increasePercentage: real, decreasePercentage: real)
    returns (r: Result<seq<PlacedSector>, FactoryError>)
    requires numberOfSectors >= MinSectors ==> RandomnessFor(numberOfSectors, chances, order, countDraws)
    ensures r.Failure? <==> numberOfSectors < MinSectors
    ensures r.Failure? ==> r.error == NotSupported
    ensures r.Success? ==>
      var planned := Shuffled(Plan(numberOfSectors, MaxValueSector, chances), order);
      NoNullValues(planned) &&
      r.value == Layout(planned, sectorSize, countDraws, increasePercentage, decreasePercentage)
    ensures r.Success? ==> |r.value| == numberOfSectors
    ensures r.Success? ==> forall i :: 0 <= i < |r.value| ==>
      r.value[i].angleFrom == sectorSize * i && r.value[i].angleTo == r.value[i].angleFrom + sectorSize
    ensures r.Success? ==> forall i :: 0 <= i < |r.value| - 1 ==> r.value[i].angleTo == r.value[i + 1].angleFrom
    ensures r.Success? ==> forall v :: 1 <= v <= MaxValueSector ==> ExactlyOnce(Faces(r.value), Sectors.Value(v))
    ensures r.Success? ==> forall i :: 0 <= i < |r.value| ==> Sectors.WellFormed(r.value[i].sector)
    ensures r.Success? ==> forall i :: 0 <= i < |r.value| && r.value[i].sector.SpeedAdjustment? ==>
      r.value[i].sector.percentage == increasePercentage || r.value[i].sector.percentage == decreasePercentage
    ensures r.Success? ==> CountTrue(LogicFlags(r.value)) == numberOfSectors - MaxValueSector
  {
    if numberOfSectors < MinSectors {
      return Failure(NotSupported);
    }
    var sectors := new PlacedSector[numberOfSectors];
    var sectorsToCreate := GetSectorsToCreate(numberOfSectors, MaxValueSector, chances, order);
    PlannedContents(numberOfSectors, chances, order);
    ghost var layout := Layout(sectorsToCreate, sectorSize, countDraws, increasePercentage, decreasePercentage);
    for sectorNo := 0 to numberOfSectors
      invariant forall j :: 0 <= j < sectorNo ==> sectors[j] == layout[j]
    {
      var sectorStart := sectorSize * sectorNo;
      var sectorEnd := sectorStart + sectorSize;
      var sectorToCreate := sectorsToCreate[sectorNo];
      var created := CreateSectorType(sectorToCreate.kind, sectorToCreate.value, countDraws[sectorNo],
                                      increasePercentage, decreasePercentage);
      sectors[sectorNo] := PlacedSector(created.value, sectorStart, sectorEnd);
    }
    assert sectors[..] == layout;
    LayoutSlots(sectorsToCreate, sectorSize, countDraws, increasePercentage, decreasePercentage);
    LayoutFaces(sectorsToCreate, numberOfSectors, sectorSize, countDraws, increasePercentage, decreasePercentage);
    r := Success(sectors[..]);
  }
}
