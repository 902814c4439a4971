/**
 * The kinds of water that flow through a water network.  Kinds are combined
 * by their ordinal: when two kinds meet, the one with the smaller ordinal wins
 * (`(WaterType)Math.Min((int)a, (int)b)` in the source).
 */
module WaterTypes {

  /** The enumeration, in the order of its ordinals. */
  datatype WaterType =
    | NoWater
    | ClearWater
    | NormalWater
    | RawWater
    | MudWater
    | SeaWater
    | RainWater

  /** Number of kinds. */
  const KindCount: nat := 7

  /** The ordinal of a kind, as the cast `(int)waterType` yields it. */
  function Ordinal(w: WaterType): (n: nat)
    ensures n < KindCount
  {
    match w
    case NoWater => 0
    case ClearWater => 1
    case NormalWater => 2
    case RawWater => 3
    case MudWater => 4
    case SeaWater => 5
    case RainWater => 6
  }

  /** The kind with a given ordinal, as the cast `(WaterType)n` yields it. */
  function FromOrdinal(n: nat): (w: WaterType)
    requires n < KindCount
    ensures Ordinal(w) == n
  {
    if n == 0 then NoWater
    else if n == 1 then ClearWater
    else if n == 2 then NormalWater
    else if n == 3 then RawWater
    else if n == 4 then MudWater
    else if n == 5 then SeaWater
    else RainWater
  }

  /** Ordinals identify kinds: the cast back undoes the cast forth. */
  lemma OrdinalRoundTrip(w: WaterType)
    ensures FromOrdinal(Ordinal(w)) == w
  {
  }

  /** `(WaterType)Math.Min((int)a, (int)b)`: the kind of smaller ordinal. */
  function MinByOrdinal(a: WaterType, b: WaterType): (r: WaterType)
    ensures r == a || r == b
    ensures Ordinal(r) <= Ordinal(a) && Ordinal(r) <= Ordinal(b)
  {
    OrdinalRoundTrip(a);
    OrdinalRoundTrip(b);
    FromOrdinal(if Ordinal(a) <= Ordinal(b) then Ordinal(a) else Ordinal(b))
  }

  /**
   * One step of the blending loops in the network's kind update: a NoWater
   * candidate is skipped, the first real kind is taken as it is, and later
   * ones are combined by ordinal.
   */
  function Blend(cur: WaterType, x: WaterType): WaterType
  {
    if x == NoWater then cur
    else if cur == NoWater then x
    else MinByOrdinal(x, cur)
  }

  /** The blending loop run over a list of kinds, left to right, from NoWater. */
  function BlendAll(ws: seq<WaterType>): WaterType
  {
    if |ws| == 0 then NoWater else Blend(BlendAll(ws[..|ws| - 1]), ws[|ws| - 1])
  }

  /**
   * The blend of a list is NoWater exactly when every kind in it is NoWater;
   * otherwise it is one of the list's kinds other than NoWater and its
   * ordinal is the smallest among them.
   */
  lemma {:induction false} BlendAllIsMinimum(ws: seq<WaterType>)
    ensures BlendAll(ws) == NoWater <==> (forall i :: 0 <= i < |ws| ==> ws[i] == NoWater)
    ensures BlendAll(ws) != NoWater ==>
      (exists i :: 0 <= i < |ws| && ws[i] == BlendAll(ws))
    ensures forall i :: 0 <= i < |ws| && ws[i] != NoWater ==> Ordinal(BlendAll(ws)) <= Ordinal(ws[i])
  {
    if |ws| > 0 {
      var m := |ws| - 1;
      var init := ws[..m];
      BlendAllIsMinimum(init);
      assert forall i :: 0 <= i < m ==> ws[i] == init[i];
      if BlendAll(init) != NoWater {
        var i :| 0 <= i < m && init[i] == BlendAll(init);
        assert ws[i] == BlendAll(init);
      }
    }
  }
}
