/**
 * Connection test between two network buildings, and the share of a
 * building's footprint that is open to the sky.
 */
module Connectivity {

  /** A map cell. */
  datatype Cell = Cell(x: int, z: int)

  /**
   * What the connection test reads of a network building: the cells it
   * occupies, its output and input connector cells, and whether its
   * output and input connectors are currently usable.
   */
  datatype NetBuilding = NetBuilding(
    occupied: seq<Cell>,
    outputConnectors: seq<Cell>,
    inputConnectors: seq<Cell>,
    hasOutputConnector: bool,
    hasInputConnector: bool)

  /** Some cell of `a` is also a cell of `b`. */
  predicate Meets(a: seq<Cell>, b: seq<Cell>)
  {
    exists i, j :: 0 <= i < |a| && 0 <= j < |b| && a[i] == b[j]
  }

  /**
   * t1 feeds t2: unless activation is ignored, t1 must have an output and
   * t2 an input connector; and some output connector of t1 lies in t2's
   * footprint while some cell of t1's footprint is an input connector of t2.
   */
  predicate OutputsTo(t1: NetBuilding, t2: NetBuilding, ignoreActivate: bool)
  {
    && (ignoreActivate || (t1.hasOutputConnector && t2.hasInputConnector))
    && Meets(t1.outputConnectors, t2.occupied)
    && Meets(t1.occupied, t2.inputConnectors)
  }

  /** The two buildings are linked in at least one direction. */
  predicate ConnectedOr(t1: NetBuilding, t2: NetBuilding, ignoreActivate: bool)
  {
    OutputsTo(t1, t2, ignoreActivate) || OutputsTo(t2, t1, ignoreActivate)
  }

  /** The two buildings are linked in both directions. */
  predicate ConnectedAnd(t1: NetBuilding, t2: NetBuilding, ignoreActivate: bool)
  {
    OutputsTo(t1, t2, ignoreActivate) && OutputsTo(t2, t1, ignoreActivate)
  }

  /** The double loop of `IsOutputTo`: search for a cell of `a` equal to a cell of `b`, stopping at the first. */
  method FindCommonCell(a: seq<Cell>, b: seq<Cell>) returns (found: bool)
    ensures found == Meets(a, b)
  {
    found := false;
    for i := 0 to |a|
      invariant !found ==> forall i', j :: 0 <= i' < i && 0 <= j < |b| ==> a[i'] != b[j]
      invariant found ==> Meets(a, b)
    {
      for j := 0 to |b|
        invariant !found ==> forall j' :: 0 <= j' < j ==> a[i] != b[j']
        invariant found ==> Meets(a, b)
      {
        if a[i] == b[j] {
          found := true;
          break;
        }
      }
      if found {
        break;
      }
    }
  }

  /** `IsOutputTo`: whether t1 feeds t2. */
  method IsOutputTo(t1: NetBuilding, t2: NetBuilding, ignoreActivate: bool) returns (r: bool)
    ensures r == OutputsTo(t1, t2, ignoreActivate)
  {
    if !ignoreActivate && !t1.hasOutputConnector {
      return false;
    }
    if !ignoreActivate && !t2.hasInputConnector {
      return false;
    }
    var outToBody := FindCommonCell(t1.outputConnectors, t2.occupied);
    var bodyToIn := FindCommonCell(t1.occupied, t2.inputConnectors);
    r := outToBody && bodyToIn;
  }

  /** `IsConnectedOr`. */
  method IsConnectedOr(t1: NetBuilding, t2: NetBuilding, ignoreActivate: bool) returns (r: bool)
    ensures r == ConnectedOr(t1, t2, ignoreActivate)
  {
    r := IsOutputTo(t1, t2, ignoreActivate);
    if !r {
      r := IsOutputTo(t2, t1, ignoreActivate);
    }
  }

  /** `IsConnectedAnd`. */
  method IsConnectedAnd(t1: NetBuilding, t2: NetBuilding, ignoreActivate: bool) returns (r: bool)
    ensures r == ConnectedAnd(t1, t2, ignoreActivate)
  {
    r := IsOutputTo(t1, t2, ignoreActivate);
    if r {
      r := IsOutputTo(t2, t1, ignoreActivate);
    }
  }

  /** Without `ignoreActivate`, a building lacking its output or its partner's input connector feeds nothing. */
  lemma NoConnectorNoLink(t1: NetBuilding, t2: NetBuilding)
    requires !t1.hasOutputConnector || !t2.hasInputConnector
    ensures !OutputsTo(t1, t2, false) && !ConnectedAnd(t1, t2, false)
    ensures ConnectedOr(t1, t2, false) <==> OutputsTo(t2, t1, false)
  {
  }

  /** Ignoring activation only adds links. */
  lemma IgnoreActivateWeakens(t1: NetBuilding, t2: NetBuilding)
    ensures OutputsTo(t1, t2, false) ==> OutputsTo(t1, t2, true)
    ensures ConnectedOr(t1, t2, false) ==> ConnectedOr(t1, t2, true)
  {
  }

  /** Both connection tests are symmetric, and a link both ways is a link. */
  lemma ConnectedSymmetric(t1: NetBuilding, t2: NetBuilding, ignoreActivate: bool)
    ensures ConnectedOr(t1, t2, ignoreActivate) == ConnectedOr(t2, t1, ignoreActivate)
    ensures ConnectedAnd(t1, t2, ignoreActivate) == ConnectedAnd(t2, t1, ignoreActivate)
    ensures ConnectedAnd(t1, t2, ignoreActivate) ==> ConnectedOr(t1, t2, ignoreActivate)
  {
  }

  /** A 1x1 pump at (0,0) with its output connector at (1,0), and a 1x1 pipe at (1,0) taking input from (0,0). */
  lemma PumpFeedsPipe()
    ensures
      var pump := NetBuilding([Cell(0, 0)], [Cell(1, 0)], [], true, false);
      var pipe := NetBuilding([Cell(1, 0)], [], [Cell(0, 0)], false, true);
      OutputsTo(pump, pipe, false) && !OutputsTo(pipe, pump, true) && ConnectedOr(pipe, pump, false)
  {
    var pump := NetBuilding([Cell(0, 0)], [Cell(1, 0)], [], true, false);
    var pipe := NetBuilding([Cell(1, 0)], [], [Cell(0, 0)], false, true);
    assert pump.outputConnectors[0] == pipe.occupied[0];
    assert pump.occupied[0] == pipe.inputConnectors[0];
  }

  /** The number of cells in `cells` that are not roofed. */
  function CountUnroofed(cells: seq<Cell>, roofed: Cell -> bool): nat
  {
    if |cells| == 0 then 0
    else CountUnroofed(cells[..|cells| - 1], roofed) + (if roofed(cells[|cells| - 1]) then 0 else 1)
  }

  /** At most every cell is unroofed; all of them exactly when no cell is roofed, none exactly when all are. */
  lemma {:induction false} CountUnroofedBounds(cells: seq<Cell>, roofed: Cell -> bool)
    ensures CountUnroofed(cells, roofed) <= |cells|
    ensures CountUnroofed(cells, roofed) == |cells| <==> forall k :: 0 <= k < |cells| ==> !roofed(cells[k])
    ensures CountUnroofed(cells, roofed) == 0 <==> forall k :: 0 <= k < |cells| ==> roofed(cells[k])
  {
    if |cells| > 0 {
      var m := |cells| - 1;
      CountUnroofedBounds(cells[..m], roofed);
      assert forall k :: 0 <= k < m ==> cells[..m][k] == cells[k];
    }
  }

  /**
   * `GetUnroofedPercent`, with the map's roof test as a parameter: the
   * share of the footprint's cells that are unroofed, 0 for no cells.
   */
  method GetUnroofedPercent(occupied: seq<Cell>, roofed: Cell -> bool) returns (r: real)
    ensures |occupied| == 0 ==> r == 0.0
    ensures |occupied| > 0 ==> r == (CountUnroofed(occupied, roofed) as real) / (|occupied| as real)
    ensures 0.0 <= r <= 1.0
    ensures |occupied| > 0 ==> (r == 1.0 <==> forall k :: 0 <= k < |occupied| ==> !roofed(occupied[k]))
  {
    var allCells := 0;
    var unroofedCells := 0;
    for i := 0 to |occupied|
      invariant allCells == i
      invariant unroofedCells == CountUnroofed(occupied[..i], roofed)
    {
      assert occupied[..i + 1][..i] == occupied[..i];
      allCells := allCells + 1;
      if !roofed(occupied[i]) {
        unroofedCells := unroofedCells + 1;
      }
    }
    assert occupied[..|occupied|] == occupied;
    if allCells == 0 {
      return 0.0;
    }
    CountUnroofedBounds(occupied, roofed);
    r := (unroofedCells as real) / (allCells as real);
    ShareBounds(unroofedCells, allCells);
  }

  /** A part of a positive whole is a share in [0, 1], and the whole share exactly when it is all of it. */
  lemma ShareBounds(part: nat, whole: nat)
    requires 0 < whole && part <= whole
    ensures 0.0 <= (part as real) / (whole as real) <= 1.0
    ensures (part as real) / (whole as real) == 1.0 <==> part == whole
  {
    var p := part as real;
    var w := whole as real;
    var q := p / w;
    assert q * w == p;
    if q < 0.0 || q > 1.0 {
      assert false;
    }
    if part == whole {
      assert q == w / w;
    }
  }
}

/** The name-based classification of terrain as a water source. */
module Terrain {
  import WaterTypes

  /** The kind of water a terrain or a tile offers. */
  datatype WaterTerrainType = NoWater | RawWater | MudWater | SeaWater

  /** `sub` occurs in `s` starting at position i. */
  predicate OccursAt(s: string, sub: string, i: int)
  {
    0 <= i && i + |sub| <= |s| && s[i..i + |sub|] == sub
  }

  /** `string.Contains`: `sub` occurs in `s` at some position. */
  predicate Contains(s: string, sub: string)
  {
    exists i :: 0 <= i <= |s| - |sub| && OccursAt(s, sub, i)
  }

  /** `IsSea`: the terrain's name mentions "WaterOcean". */
  predicate IsSea(defName: string)
  {
    Contains(defName, "WaterOcean")
  }

  /** `IsRiver`: the terrain's name mentions "WaterMoving". */
  predicate IsRiver(defName: string)
  {
    Contains(defName, "WaterMoving")
  }

  /** `IsLakeOrPond`: any other name that mentions "Water". */
  predicate IsLakeOrPond(defName: string)
  {
    !IsSea(defName) && !IsRiver(defName) && Contains(defName, "Water")
  }

  /** `IsMarsh`: the terrain's name mentions "Marsh". */
  predicate IsMarsh(defName: string)
  {
    Contains(defName, "Marsh")
  }

  /** `IsMud`: the terrain's name mentions "Mud". */
  predicate IsMud(defName: string)
  {
    Contains(defName, "Mud")
  }

  /** `GetWaterTerrainType(TerrainDef)`: sea before river, lake or pond, marsh. */
  function GetWaterTerrainType(defName: string): WaterTerrainType
  {
    if IsSea(defName) then SeaWater
    else if IsRiver(defName) then RawWater
    else if IsLakeOrPond(defName) then RawWater
    else if IsMarsh(defName) then MudWater
    else NoWater
  }

  /** `ToWaterType(TerrainDef)`: sea before marsh or mud, before river, lake or pond. */
  function ToWaterType(defName: string): WaterTypes.WaterType
  {
    if IsSea(defName) then WaterTypes.WaterType.SeaWater
    else if IsMarsh(defName) || IsMud(defName) then WaterTypes.WaterType.MudWater
    else if IsRiver(defName) || IsLakeOrPond(defName) then WaterTypes.WaterType.RawWater
    else WaterTypes.WaterType.NoWater
  }

  /** `CanGetWater(TerrainDef)`. */
  predicate CanGetWater(defName: string)
  {
    IsRiver(defName) || IsLakeOrPond(defName) || IsMarsh(defName) || IsSea(defName)
  }

  /** An occurrence of an occurrence is an occurrence. */
  lemma ContainsTransitive(s: string, t: string, u: string)
    requires Contains(s, t) && Contains(t, u)
    ensures Contains(s, u)
  {
    var i :| 0 <= i <= |s| - |t| && OccursAt(s, t, i);
    var j :| 0 <= j <= |t| - |u| && OccursAt(t, u, j);
    assert forall k :: 0 <= k < |t| ==> t[k] == s[i + k];
    assert s[i + j..i + j + |u|] == t[j..j + |u|];
    assert OccursAt(s, u, i + j);
  }

  /** A string contains every prefix of itself. */
  lemma ContainsPrefix(s: string, p: string)
    requires |p| <= |s| && s[..|p|] == p
    ensures Contains(s, p)
  {
    assert OccursAt(s, p, 0);
  }

  /** A sea or river name mentions "Water", so a name can be drawn from exactly when it mentions "Water" or "Marsh". */
  lemma CanGetWaterByName(defName: string)
    ensures IsSea(defName) ==> Contains(defName, "Water")
    ensures IsRiver(defName) ==> Contains(defName, "Water")
    ensures CanGetWater(defName) <==> Contains(defName, "Water") || IsMarsh(defName)
  {
    ContainsPrefix("WaterOcean", "Water");
    ContainsPrefix("WaterMoving", "Water");
    if IsSea(defName) {
      ContainsTransitive(defName, "WaterOcean", "Water");
    }
    if IsRiver(defName) {
      ContainsTransitive(defName, "WaterMoving", "Water");
    }
  }

  /** The terrain offers water exactly when `CanGetWater` holds. */
  lemma TerrainTypeMatchesCanGetWater(defName: string)
    ensures GetWaterTerrainType(defName) != NoWater <==> CanGetWater(defName)
    ensures ToWaterType(defName) != WaterTypes.WaterType.NoWater <==> CanGetWater(defName) || IsMud(defName)
  {
  }

  /** The three water classes are exclusive: a lake or pond is never sea or river. */
  lemma LakeIsNeitherSeaNorRiver(defName: string)
    ensures IsLakeOrPond(defName) ==> !IsSea(defName) && !IsRiver(defName)
    ensures IsLakeOrPond(defName) ==> GetWaterTerrainType(defName) == RawWater
  {
  }

  /** A name mentioning "WaterOcean" is sea water in both classifications, whatever else it mentions. */
  lemma OceanTakesPrecedence(defName: string)
    requires Contains(defName, "WaterOcean")
    ensures GetWaterTerrainType(defName) == SeaWater
    ensures ToWaterType(defName) == WaterTypes.WaterType.SeaWater
    ensures CanGetWater(defName)
  {
  }

  /** The two classifications agree exactly on sea, and on raw water away from marsh and mud; mud terrain is mud water. */
  lemma ClassificationsAgree(defName: string)
    ensures GetWaterTerrainType(defName) == RawWater && !IsMarsh(defName) && !IsMud(defName) ==>
      ToWaterType(defName) == WaterTypes.WaterType.RawWater
    ensures GetWaterTerrainType(defName) == MudWater ==> ToWaterType(defName) == WaterTypes.WaterType.MudWater
    ensures GetWaterTerrainType(defName) == SeaWater <==> ToWaterType(defName) == WaterTypes.WaterType.SeaWater
  {
  }

  /** Deep ocean water is sea; a marsh is mud. */
  lemma NamedTerrains()
    ensures GetWaterTerrainType("WaterOceanDeep") == SeaWater
    ensures GetWaterTerrainType("Marsh") == MudWater
    ensures ToWaterType("Mud") == WaterTypes.WaterType.MudWater
  {
    assert OccursAt("WaterOceanDeep", "WaterOcean", 0);
    assert OccursAt("Marsh", "Marsh", 0);
    assert OccursAt("Mud", "Mud", 0);
  }
}

/** How drinkable a kind of water is, for consumers. */
module Preference {
  import WaterTypes

  /** The consumer-facing ranking of water. */
  datatype WaterPreferability = Undefined | SeaWater | MudWater | RawWater | NormalWater | ClearWater

  /** `ToWaterPreferability`: the same-named rank, Undefined for NoWater and RainWater. */
  function ToWaterPreferability(waterType: WaterTypes.WaterType): WaterPreferability
  {
    match waterType
    case ClearWater => ClearWater
    case NormalWater => NormalWater
    case RawWater => RawWater
    case MudWater => MudWater
    case SeaWater => SeaWater
    case _ => Undefined
  }

  /** Only NoWater and RainWater have no rank, and distinct ranked kinds get distinct ranks. */
  lemma PreferabilityFacts(a: WaterTypes.WaterType, b: WaterTypes.WaterType)
    ensures ToWaterPreferability(a) == Undefined <==>
      a == WaterTypes.WaterType.NoWater || a == WaterTypes.WaterType.RainWater
    ensures ToWaterPreferability(a) == ToWaterPreferability(b) && ToWaterPreferability(a) != Undefined ==> a == b
  {
  }
}

/** Water carried by items: how much one holds, how many to take, and the stock total. */
module WaterItems {
  import opened Wrappers

  /** Whether a water source is an item to drink or a building to draw from. */
  datatype SourceType = Item | Building

  /** A thing's water-source component: its type, water per unit, and how many units may be taken at once. */
  datatype WaterSource = WaterSource(sourceType: SourceType, waterAmount: real, maxNumToGetAtOnce: int)

  /** A thing: its water-source component, if any, and its stack size. */
  datatype WaterThing = WaterThing(source: Option<WaterSource>, stackCount: int)

  /** `CanDrinkWater`: the thing has a water-source component of item type. */
  predicate CanDrinkWater(t: WaterThing)
  {
    t.source.Some? && t.source.value.sourceType == Item
  }

  /** `CanGetWater(Thing)`: a drinkable thing holding some water. */
  predicate CanGetWater(t: WaterThing)
  {
    CanDrinkWater(t) && t.source.value.waterAmount > 0.0
  }

  /** `GetWaterAmount`: water per unit of an item source, never below 0, and 0 for anything else. */
  function GetWaterAmount(t: WaterThing): (r: real)
    ensures r >= 0.0
    ensures !CanDrinkWater(t) ==> r == 0.0
    ensures CanDrinkWater(t) && t.source.value.waterAmount >= 0.0 ==> r == t.source.value.waterAmount
  {
    if t.source.None? then 0.0
    else if t.source.value.sourceType != Item then 0.0
    else if t.source.value.waterAmount >= 0.0 then t.source.value.waterAmount else 0.0
  }

  /** A thing can give water exactly when its water amount is positive. */
  lemma CanGetWaterIffAmount(t: WaterThing)
    ensures CanGetWater(t) <==> GetWaterAmount(t) > 0.0
  {
  }

  /** `Math.Ceiling` on exact reals, truncated to an integer. */
  function Ceil(x: real): (n: int)
    ensures x <= n as real < x + 1.0
  {
    if x.Floor as real == x then x.Floor else x.Floor + 1
  }

  /** The two results of `GetWaterCalculateAmounts`. */
  datatype WaterTake = WaterTake(numTaken: int, waterGot: real)

  /**
   * `GetWaterCalculateAmounts`: for an amount of 0 per unit, nothing; else
   * the units needed for `waterWanted`, limited by the stack and by how many
   * may be taken at once, but at least one, and the water they hold.
   */
  function GetWaterCalculateAmounts(t: WaterThing, waterWanted: real): WaterTake
  {
    var waterAmount := GetWaterAmount(t);
    if waterAmount == 0.0 then WaterTake(0, 0.0)
    else
      var needed := Ceil(waterWanted / waterAmount);
      var numTaken := MaxInt(MinInt(MinInt(needed, t.stackCount), t.source.value.maxNumToGetAtOnce), 1);
      WaterTake(numTaken, (numTaken as real) * waterAmount)
  }

  /**
   * With no water per unit nothing is taken; otherwise at least one unit is
   * taken, never more than needed, the stack or the at-once limit allow
   * (beyond the one-unit floor), never fewer than the least of those three,
   * and the water got is the units' water.
   */
  lemma CalculateAmountsBounds(t: WaterThing, waterWanted: real)
    ensures GetWaterAmount(t) == 0.0 ==> GetWaterCalculateAmounts(t, waterWanted) == WaterTake(0, 0.0)
    ensures GetWaterAmount(t) > 0.0 ==>
      var r := GetWaterCalculateAmounts(t, waterWanted);
      && r.numTaken >= 1
      && (r.numTaken == 1 || (r.numTaken <= t.stackCount && r.numTaken <= t.source.value.maxNumToGetAtOnce
                              && r.numTaken as real < waterWanted / GetWaterAmount(t) + 1.0))
      && r.numTaken >= MinInt(MinInt(Ceil(waterWanted / GetWaterAmount(t)), t.stackCount), t.source.value.maxNumToGetAtOnce)
      && r.waterGot == (r.numTaken as real) * GetWaterAmount(t)
  {
  }

  /** A stack of three one-unit items, ten wanted: the stack limits the take to all three. */
  lemma CalculateAmountsStackBinds()
    ensures GetWaterCalculateAmounts(WaterThing(Some(WaterSource(Item, 1.0, 10)), 3), 10.0) == WaterTake(3, 3.0)
  {
    assert Ceil(10.0 / 1.0) == 10;
  }

  /**
   * When the stack and the at-once limit allow it, the units taken are the
   * fewest that meet the demand: their water covers `waterWanted`, and one
   * unit fewer would not.
   */
  lemma CalculateAmountsMeetDemand(t: WaterThing, waterWanted: real)
    requires GetWaterAmount(t) > 0.0 && waterWanted > 0.0
    requires Ceil(waterWanted / GetWaterAmount(t)) <= t.stackCount
    requires Ceil(waterWanted / GetWaterAmount(t)) <= t.source.value.maxNumToGetAtOnce
    ensures GetWaterCalculateAmounts(t, waterWanted).waterGot >= waterWanted
    ensures GetWaterCalculateAmounts(t, waterWanted).waterGot - GetWaterAmount(t) < waterWanted
  {
    var a := GetWaterAmount(t);
    var n := Ceil(waterWanted / a);
    CeilCovers(waterWanted, a, n as real);
    assert n >= 1;
    var r := GetWaterCalculateAmounts(t, waterWanted);
    assert r.numTaken == n by {
      assert MinInt(n, t.stackCount) == n;
      assert MinInt(MinInt(n, t.stackCount), t.source.value.maxNumToGetAtOnce) == n;
      assert MaxInt(n, 1) == n;
    }
  }

  /** Units of `a` as many as the ceiling of `w / a` cover `w`, with less than one unit to spare. */
  lemma CeilCovers(w: real, a: real, c: real)
    requires a > 0.0 && w > 0.0
    requires w / a <= c < w / a + 1.0
    ensures c > 0.0
    ensures w <= c * a
    ensures c * a - a < w
  {
    var q := w / a;
    assert q * a == w;
    assert q > 0.0 by {
      if q <= 0.0 {
        MulMonotone(q, 0.0, a);
        assert false;
      }
    }
    MulMonotone(q, c, a);
    var d := c - 1.0;
    MulStrict(d, q, a);
    assert d * a < w;
    assert d * a == c * a - a;
  }

  /** Multiplying by a positive factor keeps order. */
  lemma MulMonotone(x: real, y: real, a: real)
    requires x <= y && a > 0.0
    ensures x * a <= y * a
  {
  }

  /** Multiplying by a positive factor keeps strict order. */
  lemma MulStrict(x: real, y: real, a: real)
    requires x < y && a > 0.0
    ensures x * a < y * a
  {
  }

  /** The water-source properties a counted def carries, if it has any. */
  datatype SourceProps = SourceProps(sourceType: SourceType, waterAmount: real)

  /** One line of the resource counter: a def's water-source properties (if any) and how many are stocked. */
  datatype CountedAmount = CountedAmount(props: Option<SourceProps>, count: int)

  /** What one line adds to the total: amount x count for an item source with positive amount, else 0. */
  function LineWater(c: CountedAmount): real
  {
    if c.props.Some? && c.props.value.sourceType == Item && c.props.value.waterAmount > 0.0
    then c.props.value.waterAmount * (c.count as real)
    else 0.0
  }

  /** The sum over all lines. */
  function SumWater(cs: seq<CountedAmount>): real
  {
    if |cs| == 0 then 0.0 else SumWater(cs[..|cs| - 1]) + LineWater(cs[|cs| - 1])
  }

  /** `TotalWater`, over the counter's lines. */
  method TotalWater(amounts: seq<CountedAmount>) returns (num: real)
    ensures num == SumWater(amounts)
  {
    num := 0.0;
    for i := 0 to |amounts|
      invariant num == SumWater(amounts[..i])
    {
      assert amounts[..i + 1][..i] == amounts[..i];
      var current := amounts[i];
      if current.props.None? {
        continue;
      }
      if current.props.value.sourceType != Item {
        continue;
      }
      if current.props.value.waterAmount > 0.0 {
        num := num + current.props.value.waterAmount * (current.count as real);
      }
    }
    assert amounts[..|amounts|] == amounts;
  }

  /**
   * With non-negative stock counts the total is never negative, and it is
   * zero when no line is an item source with a positive amount.
   */
  lemma {:induction false} SumWaterFacts(cs: seq<CountedAmount>)
    requires forall k :: 0 <= k < |cs| ==> cs[k].count >= 0
    ensures SumWater(cs) >= 0.0
    ensures (forall k :: 0 <= k < |cs| ==> LineWater(cs[k]) == 0.0) ==> SumWater(cs) == 0.0
    ensures forall k :: 0 <= k < |cs| ==> 0.0 <= LineWater(cs[k]) <= SumWater(cs)
  {
    if |cs| > 0 {
      var m := |cs| - 1;
      assert forall k :: 0 <= k < m ==> cs[..m][k] == cs[k];
      SumWaterFacts(cs[..m]);
      var c := cs[m];
      if c.props.Some? && c.props.value.sourceType == Item && c.props.value.waterAmount > 0.0 {
        MulMonotone(0.0, c.count as real, c.props.value.waterAmount);
      }
    }
  }
}
