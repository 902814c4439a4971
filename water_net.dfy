/**
 * The water network class: a list of member buildings, the net's kind of
 * water and the flow totals of the last update.
 *
 * Every method that walks the members is proved equal to the matching
 * function of WaterNetSpec on the members' components, so the properties
 * proved there are properties of the class.
 */
module WaterNets {
  import opened Wrappers
  import opened WaterTypes
  import opened WaterNetSpec

  /** The static `nextID` counter that numbers the nets. */
  class NextIdCounter {
    var nextID: int

    /** The counter as the program starts: the next net gets ID 1. */
    constructor ()
      ensures nextID == 1
    {
      nextID := 1;
    }

    /** `WaterNet.ClearNextID`: the next net gets ID 1 again. */
    method ClearNextID()
      modifies this
      ensures nextID == 1
    {
      nextID := 1;
    }
  }

  /** A member building: its back-reference to a net and its components. */
  class Building {
    var waterNet: WaterNet?
    var comps: Components

    constructor (comps: Components)
      ensures this.comps == comps && waterNet == null
    {
      this.comps := comps;
      waterNet := null;
    }
  }

  /** The components of a list of members, in list order. */
  function Comps(bs: seq<Building>): (cs: seq<Components>)
    reads bs
    ensures |cs| == |bs|
    ensures forall k :: 0 <= k < |bs| ==> cs[k] == bs[k].comps
  {
    seq(|bs|, k requires 0 <= k < |bs| reads bs => bs[k].comps)
  }

  /** `List.Remove`: the list without the first occurrence of x, if any. */
  function RemoveFirst<T(==)>(s: seq<T>, x: T): seq<T>
  {
    if |s| == 0 then []
    else if s[0] == x then s[1..]
    else [s[0]] + RemoveFirst(s[1..], x)
  }

  /** Removing takes exactly one occurrence of x away, and nothing when there is none. */
  lemma {:induction false} RemoveFirstMultiset<T>(s: seq<T>, x: T)
    ensures multiset(RemoveFirst(s, x)) == multiset(s) - multiset{x}
  {
    if |s| > 0 {
      assert s == [s[0]] + s[1..];
      if s[0] != x {
        RemoveFirstMultiset(s[1..], x);
      }
    }
  }

  /** Removing what was just appended to a list that did not hold it restores the list. */
  lemma {:induction false} RemoveFirstAppend<T>(s: seq<T>, x: T)
    requires x !in s
    ensures RemoveFirst(s + [x], x) == s
  {
    if |s| > 0 {
      assert (s + [x])[1..] == s[1..] + [x];
      RemoveFirstAppend(s[1..], x);
    }
  }

  /** From a duplicate-free list, removing x leaves a duplicate-free list of the other members. */
  lemma {:induction false} RemoveFirstDistinct<T>(s: seq<T>, x: T)
    requires Distinct(s)
    ensures Distinct(RemoveFirst(s, x))
    ensures forall y :: y in RemoveFirst(s, x) <==> y in s && y != x
  {
    if |s| > 0 {
      var t := s[1..];
      assert s == [s[0]] + t;
      assert forall i :: 0 <= i < |t| ==> t[i] == s[i + 1];
      assert Distinct(t);
      assert s[0] !in t;
      if s[0] != x {
        RemoveFirstDistinct(t, x);
        var r := RemoveFirst(s, x);
        var u := RemoveFirst(t, x);
        assert r == [s[0]] + u;
        forall i, j | 0 <= i < j < |r|
          ensures r[i] != r[j]
        {
          if i == 0 {
            assert r[j] == u[j - 1] && u[j - 1] in u;
          } else {
            assert r[i] == u[i - 1] && r[j] == u[j - 1];
          }
        }
      }
    }
  }

  /** A water network. */
  class WaterNet {
    var ID: int
    var things: seq<Building>
    var waterType: WaterType
    var lastOutputWaterFlow: real
    var lastInputWaterFlow: real

    /** Membership is consistent: no member twice, and every member points back to this net. */
    ghost predicate Valid()
      reads this`things, things`waterNet
    {
      Distinct(things) && forall b :: b in things ==> b.waterNet == this
    }

    /** `WaterNet()`: an empty net numbered by the counter, which moves on by one. */
    constructor (ids: NextIdCounter)
      modifies ids
      ensures ID == old(ids.nextID) && ids.nextID == old(ids.nextID) + 1
      ensures things == [] && waterType == NoWater
      ensures lastOutputWaterFlow == 0.0 && lastInputWaterFlow == 0.0
      ensures Valid()
    {
      ID := ids.nextID;
      things := [];
      waterType := NoWater;
      lastOutputWaterFlow := 0.0;
      lastInputWaterFlow := 0.0;
      ids.nextID := ids.nextID + 1;
    }

    /** `WaterNet(thing)`: a net numbered by the counter whose only member is `thing`. */
    constructor WithThing(ids: NextIdCounter, thing: Building)
      modifies ids, thing`waterNet
      ensures ID == old(ids.nextID) && ids.nextID == old(ids.nextID) + 1
      ensures things == [thing] && thing.waterNet == this
      ensures waterType == NoWater
      ensures lastOutputWaterFlow == 0.0 && lastInputWaterFlow == 0.0
      ensures Valid()
    {
      ID := ids.nextID;
      things := [];
      waterType := NoWater;
      lastOutputWaterFlow := 0.0;
      lastInputWaterFlow := 0.0;
      ids.nextID := ids.nextID + 1;
      new;
      AddThing(thing);
    }

    /** `AddThing`: the member points to this net and is appended; a new member keeps membership consistent. */
    method AddThing(thing: Building)
      modifies this`things, thing`waterNet
      ensures thing.waterNet == this
      ensures things == old(things) + [thing]
      ensures old(Valid()) && thing !in old(things) ==> Valid()
    {
      thing.waterNet := this;
      things := things + [thing];
    }

    /** `RemoveThing`: the member's back-reference is cleared and its first occurrence removed. */
    method RemoveThing(thing: Building)
      modifies this`things, thing`waterNet
      ensures thing.waterNet == null
      ensures things == RemoveFirst(old(things), thing)
      ensures old(Valid()) ==> Valid() && thing !in things
    {
      ghost var wasValid := Valid();
      thing.waterNet := null;
      if wasValid {
        RemoveFirstDistinct(things, thing);
      }
      things := RemoveFirst(things, thing);
    }

    /** `ClearThings`: every former member's back-reference is cleared and the list is empty. */
    method ClearThings()
      modifies this`things, things`waterNet
      ensures things == []
      ensures forall b :: b in old(things) ==> b.waterNet == null
      ensures Valid()
    {
      for i := 0 to |things|
        invariant things == old(things)
        invariant forall j :: 0 <= j < i ==> things[j].waterNet == null
      {
        things[i].waterNet := null;
      }
      things := [];
    }

    /** `StoredWaterVolume`: the volume stored over all member tanks. */
    method StoredWaterVolume() returns (r: real)
      ensures r == SumStored(Comps(things))
    {
      ghost var cs := Comps(things);
      r := 0.0;
      for i := 0 to |things|
        invariant r == SumStored(cs[..i])
      {
        assert cs[..i + 1][..i] == cs[..i];
        if things[i].comps.tank.Some? {
          r := r + things[i].comps.tank.value.stored;
        }
      }
      assert cs[..|things|] == cs;
    }

    /** The number of members whose tank holds water. */
    method CountWithVolume() returns (n: nat)
      ensures n == CountHasVolume(Comps(things))
    {
      ghost var cs := Comps(things);
      n := 0;
      for i := 0 to |things|
        invariant n == CountHasVolume(cs[..i])
      {
        assert cs[..i + 1][..i] == cs[..i];
        if HasVolume(things[i].comps) {
          n := n + 1;
        }
      }
      assert cs[..|things|] == cs;
    }

    /** One round of the draw loop: every tank holding water is asked for `avg`. */
    method DrawFromEach(avg: real, total: real) returns (rest: real)
      requires Distinct(things)
      modifies things`comps
      ensures Comps(things) == DrawRound(old(Comps(things)), avg)
      ensures rest == total - DrawnSum(old(Comps(things)), avg)
    {
      ghost var cs := Comps(things);
      rest := total;
      for i := 0 to |things|
        invariant forall j :: 0 <= j < i ==> things[j].comps == DrawStep(cs[j], avg)
        invariant forall j :: i <= j < |things| ==> things[j].comps == cs[j]
        invariant rest == total - DrawnSum(cs[..i], avg)
      {
        assert cs[..i + 1][..i] == cs[..i];
        var b := things[i];
        if HasVolume(b.comps) {
          var got := TankDraw(b.comps.tank.value, avg);
          b.comps := b.comps.(tank := Some(got.0));
          rest := rest - got.1;
        }
      }
      assert cs[..|things|] == cs;
    }

    /** `DrawWaterVolume`: the draw loop run from `amount`. */
    method DrawWaterVolume(amount: real)
      requires Distinct(things)
      modifies things`comps
      ensures Comps(things) == DrawLoop(old(Comps(things)), amount)
    {
      ghost var orig := Comps(things);
      var totalAmount := amount;
      while totalAmount > 0.0
        invariant DrawLoop(Comps(things), totalAmount) == DrawLoop(orig, amount)
        decreases CountHasVolume(Comps(things)) + (if totalAmount > 0.0 then 1 else 0)
      {
        var n := CountWithVolume();
        if n == 0 {
          break;
        }
        totalAmount := DrawTurn(n, totalAmount);
      }
    }

    /** One turn of the draw loop: `total` is split evenly among the `n` tanks holding water. */
    method DrawTurn(n: nat, total: real) returns (rest: real)
      requires Distinct(things)
      requires total > 0.0 && n > 0 && n == CountHasVolume(Comps(things))
      modifies things`comps
      ensures DrawLoop(Comps(things), rest) == DrawLoop(old(Comps(things)), total)
      ensures CountHasVolume(Comps(things)) + (if rest > 0.0 then 1 else 0) < n + 1
    {
      var averageAmount := total / (n as real);
      ghost var cur := Comps(things);
      rest := DrawFromEach(averageAmount, total);
      DrawLoopStep(cur, total, averageAmount, Comps(things), rest);
    }

    /** The number of network-fed member tanks with room left. */
    method CountAccepting() returns (n: nat)
      ensures n == CountCanAccept(Comps(things))
    {
      ghost var cs := Comps(things);
      n := 0;
      for i := 0 to |things|
        invariant n == CountCanAccept(cs[..i])
      {
        assert cs[..i + 1][..i] == cs[..i];
        if CanAccept(things[i].comps) {
          n := n + 1;
        }
      }
      assert cs[..|things|] == cs;
    }

    /** One round of the add loop: every network-fed tank with room is offered `avg`. */
    method AddToEach(avg: real, total: real) returns (rest: real)
      requires Distinct(things)
      modifies things`comps
      ensures Comps(things) == AddRound(old(Comps(things)), avg)
      ensures rest == total - AddedSum(old(Comps(things)), avg)
    {
      ghost var cs := Comps(things);
      rest := total;
      for i := 0 to |things|
        invariant forall j :: 0 <= j < i ==> things[j].comps == AddStep(cs[j], avg)
        invariant forall j :: i <= j < |things| ==> things[j].comps == cs[j]
        invariant rest == total - AddedSum(cs[..i], avg)
      {
        assert cs[..i + 1][..i] == cs[..i];
        var b := things[i];
        if CanAccept(b.comps) {
          var got := TankAdd(b.comps.tank.value, avg);
          b.comps := b.comps.(tank := Some(got.0));
          rest := rest - got.1;
        }
      }
      assert cs[..|things|] == cs;
    }

    /** `AddWaterVolume`: the add loop run from `amount`. */
    method AddWaterVolume(amount: real)
      requires Distinct(things)
      modifies things`comps
      ensures Comps(things) == AddLoop(old(Comps(things)), amount)
    {
      ghost var orig := Comps(things);
      var totalAmount := amount;
      while totalAmount > 0.0
        invariant AddLoop(Comps(things), totalAmount) == AddLoop(orig, amount)
        decreases CountCanAccept(Comps(things)) + (if totalAmount > 0.0 then 1 else 0)
      {
        var n := CountAccepting();
        if n == 0 {
          break;
        }
        totalAmount := AddTurn(n, totalAmount);
      }
    }

    /** One turn of the add loop: `total` is split evenly among the `n` tanks with room. */
    method AddTurn(n: nat, total: real) returns (rest: real)
      requires Distinct(things)
      requires total > 0.0 && n > 0 && n == CountCanAccept(Comps(things))
      modifies things`comps
      ensures AddLoop(Comps(things), rest) == AddLoop(old(Comps(things)), total)
      ensures CountCanAccept(Comps(things)) + (if rest > 0.0 then 1 else 0) < n + 1
    {
      var averageWaterFlow := total / (n as real);
      ghost var cur := Comps(things);
      rest := AddToEach(averageWaterFlow, total);
      AddLoopStep(cur, total, averageWaterFlow, Comps(things), rest);
    }

    /** `UpdateOutputWaterFlow`: the flow of the activated outputs becomes the last output total. */
    method UpdateOutputWaterFlow()
      modifies this`lastOutputWaterFlow
      ensures lastOutputWaterFlow == OutputFlowSum(Comps(things))
    {
      ghost var cs := Comps(things);
      var outputWaterFlow := 0.0;
      for i := 0 to |things|
        invariant outputWaterFlow == OutputFlowSum(cs[..i])
      {
        assert cs[..i + 1][..i] == cs[..i];
        var c := things[i].comps;
        if c.output.Some? && c.output.value.activated {
          outputWaterFlow := outputWaterFlow + c.output.value.flow;
        }
      }
      assert cs[..|things|] == cs;
      lastOutputWaterFlow := outputWaterFlow;
    }

    /** The reset loop of `UpdateInputWaterFlow`: every input's flow becomes 0. */
    method ResetInputFlows()
      requires Distinct(things)
      modifies things`comps
      ensures Comps(things) == ResetInputs(old(Comps(things)))
    {
      ghost var cs := Comps(things);
      for i := 0 to |things|
        invariant forall j :: 0 <= j < i ==> things[j].comps == ResetStep(cs[j])
        invariant forall j :: i <= j < |things| ==> things[j].comps == cs[j]
      {
        var b := things[i];
        if b.comps.input.Some? {
          b.comps := b.comps.(input := Some(b.comps.input.value.(flow := 0.0)));
        }
      }
    }

    /** The constant pass: in list order, a constant input whose maximum the budget covers gets it. */
    method GrantConstantInputs(budget: real) returns (left: real)
      requires Distinct(things)
      modifies things`comps
      ensures Comps(things) == AllocateConstant(old(Comps(things)), budget).0
      ensures left == AllocateConstant(old(Comps(things)), budget).1
    {
      ghost var cs := Comps(things);
      left := budget;
      for i := 0 to |things|
        invariant |AllocateConstant(cs[..i], budget).0| == i
        invariant left == AllocateConstant(cs[..i], budget).1
        invariant forall j :: 0 <= j < i ==> things[j].comps == AllocateConstant(cs[..i], budget).0[j]
        invariant forall j :: i <= j < |things| ==> things[j].comps == cs[j]
      {
        AllocateConstantSnoc(cs, budget, i);
        var b := things[i];
        if IsConstantNet(b.comps) {
          if left >= b.comps.input.value.maxFlow {
            left := left - b.comps.input.value.maxFlow;
            b.comps := b.comps.(input := Some(b.comps.input.value.(flow := b.comps.input.value.maxFlow)));
          }
        }
      }
      assert cs[..|things|] == cs;
    }

    /** The number of Any inputs still below their maximum. */
    method CountAnyBelowMax() returns (n: nat)
      ensures n == CountAnyEligible(Comps(things))
    {
      ghost var cs := Comps(things);
      n := 0;
      for i := 0 to |things|
        invariant n == CountAnyEligible(cs[..i])
      {
        assert cs[..i + 1][..i] == cs[..i];
        if AnyEligible(things[i].comps) {
          n := n + 1;
        }
      }
      assert cs[..|things|] == cs;
    }

    /** One sharing round: every Any input below its maximum is set to min(avg, max). */
    method ShareToEach(avg: real, budget: real) returns (left: real)
      requires Distinct(things)
      modifies things`comps
      ensures Comps(things) == AnyRound(old(Comps(things)), avg)
      ensures left == budget - AnyTakenSum(old(Comps(things)), avg)
    {
      ghost var cs := Comps(things);
      left := budget;
      for i := 0 to |things|
        invariant forall j :: 0 <= j < i ==> things[j].comps == AnyStep(cs[j], avg)
        invariant forall j :: i <= j < |things| ==> things[j].comps == cs[j]
        invariant left == budget - AnyTakenSum(cs[..i], avg)
      {
        assert cs[..i + 1][..i] == cs[..i];
        var b := things[i];
        if AnyEligible(b.comps) {
          var actualInput := MinReal(avg, b.comps.input.value.maxFlow);
          b.comps := b.comps.(input := Some(b.comps.input.value.(flow := actualInput)));
          left := left - actualInput;
        }
      }
      assert cs[..|things|] == cs;
    }

    /** The sharing loop: rounds until the budget is used up or no Any input is below its maximum. */
    method ShareAnyInputs(budget: real) returns (left: real)
      requires Distinct(things)
      modifies things`comps
      ensures (Comps(things), left) == AnyLoop(old(Comps(things)), budget)
    {
      ghost var orig := Comps(things);
      left := budget;
      while left > 0.0
        invariant AnyLoop(Comps(things), left) == AnyLoop(orig, budget)
        decreases CountAnyEligible(Comps(things)) + (if left > 0.0 then 1 else 0)
      {
        var n := CountAnyBelowMax();
        if n == 0 {
          break;
        }
        left := ShareTurn(n, left);
      }
    }

    /** One sharing round: `budget` is split evenly among the `n` Any inputs below their maximum. */
    method ShareTurn(n: nat, budget: real) returns (left: real)
      requires Distinct(things)
      requires budget > 0.0 && n > 0 && n == CountAnyEligible(Comps(things))
      modifies things`comps
      ensures AnyLoop(Comps(things), left) == AnyLoop(old(Comps(things)), budget)
      ensures CountAnyEligible(Comps(things)) + (if left > 0.0 then 1 else 0) < n + 1
    {
      var averageOutputWaterFlow := budget / (n as real);
      ghost var cur := Comps(things);
      left := ShareToEach(averageOutputWaterFlow, budget);
      AnyLoopStep(cur, budget, averageOutputWaterFlow, Comps(things), left);
    }

    /** The rain loop: every activated rain input's flow becomes max x rainRate. */
    method ApplyRain(rainRate: real)
      requires Distinct(things)
      modifies things`comps
      ensures Comps(things) == RainAll(old(Comps(things)), rainRate)
    {
      ghost var cs := Comps(things);
      for i := 0 to |things|
        invariant forall j :: 0 <= j < i ==> things[j].comps == RainStep(cs[j], rainRate)
        invariant forall j :: i <= j < |things| ==> things[j].comps == cs[j]
      {
        var b := things[i];
        assert b.comps == cs[i];
        if IsActiveRain(b.comps) {
          assert IsActiveRain(cs[i]);
          var inflow := RainFlow(b.comps.input.value, rainRate);
          b.comps := b.comps.(input := Some(b.comps.input.value.(flow := inflow)));
        }
        assert b.comps == RainStep(cs[i], rainRate);
      }
    }

    /**
     * `UpdateInputWaterFlow`, with the map's rain rate as a parameter: the
     * members' inputs and the last input total become those of InputPhase.
     */
    method UpdateInputWaterFlow(rainRate: real)
      requires Distinct(things)
      modifies this`lastInputWaterFlow, things`comps
      ensures Comps(things) == InputPhase(old(Comps(things)), lastOutputWaterFlow, rainRate).0
      ensures lastInputWaterFlow == InputPhase(old(Comps(things)), lastOutputWaterFlow, rainRate).1
    {
      var outputWaterFlow := AllocateNetInputs(lastOutputWaterFlow);
      lastInputWaterFlow := lastOutputWaterFlow - outputWaterFlow;
      ApplyRain(rainRate);
    }

    /** The network-fed loops of `UpdateInputWaterFlow`: reset, the constant pass, the sharing loop. */
    method AllocateNetInputs(budget: real) returns (left: real)
      requires Distinct(things)
      modifies things`comps
      ensures Comps(things) == NetAllocation(old(Comps(things)), budget).0
      ensures left == NetAllocation(old(Comps(things)), budget).1
    {
      ResetInputFlows();
      left := GrantConstantInputs(budget);
      left := ShareAnyInputs(left);
    }

    /** The first loop of `UpdateWaterTankStorage`: each tank adds or draws the tick's net flow. */
    method ApplyTankFlows()
      requires Distinct(things)
      modifies things`comps
      ensures Comps(things) == FlowAll(old(Comps(things)))
    {
      ghost var cs := Comps(things);
      for i := 0 to |things|
        invariant forall j :: 0 <= j < i ==> things[j].comps == FlowStep(cs[j])
        invariant forall j :: i <= j < |things| ==> things[j].comps == cs[j]
      {
        var b := things[i];
        assert b.comps == cs[i];
        if b.comps.tank.Some? {
          var inputWaterFlow := 0.0;
          if b.comps.input.Some? {
            inputWaterFlow := b.comps.input.value.flow;
          }
          var outputWaterFlow := 0.0;
          if b.comps.output.Some? {
            outputWaterFlow := b.comps.output.value.flow;
          }
          var deltaWaterFlow := inputWaterFlow - outputWaterFlow;
          if deltaWaterFlow > 0.0 {
            b.comps := b.comps.(tank := Some(TankAdd(b.comps.tank.value, deltaWaterFlow / TicksPerDay).0));
          } else if deltaWaterFlow < 0.0 {
            b.comps := b.comps.(tank := Some(TankDraw(b.comps.tank.value, -deltaWaterFlow / TicksPerDay).0));
          }
        }
      }
    }

    /** The second loop of `UpdateWaterTankStorage`: an emptied network-fed tank holds NoWater. */
    method ClearEmptyNetTanks()
      requires Distinct(things)
      modifies things`comps
      ensures Comps(things) == NetTypeAll(old(Comps(things)))
    {
      ghost var cs := Comps(things);
      for i := 0 to |things|
        invariant forall j :: 0 <= j < i ==> things[j].comps == NetTypeStep(cs[j])
        invariant forall j :: i <= j < |things| ==> things[j].comps == cs[j]
      {
        var b := things[i];
        assert b.comps == cs[i];
        if NetFed(b.comps) && b.comps.tank.value.stored == 0.0 {
          b.comps := b.comps.(tank := Some(b.comps.tank.value.(storedType := NoWater)));
        }
      }
    }

    /** The third loop of `UpdateWaterTankStorage`: a rain-fed tank holds rain water exactly when it holds water. */
    method MarkRainTanks()
      requires Distinct(things)
      modifies things`comps
      ensures Comps(things) == RainTypeAll(old(Comps(things)))
    {
      ghost var cs := Comps(things);
      for i := 0 to |things|
        invariant forall j :: 0 <= j < i ==> things[j].comps == RainTypeStep(cs[j])
        invariant forall j :: i <= j < |things| ==> things[j].comps == cs[j]
      {
        var b := things[i];
        assert b.comps == cs[i];
        if RainFed(b.comps) {
          if b.comps.tank.value.stored == 0.0 {
            b.comps := b.comps.(tank := Some(b.comps.tank.value.(storedType := NoWater)));
          } else {
            b.comps := b.comps.(tank := Some(b.comps.tank.value.(storedType := RainWater)));
          }
        }
      }
    }

    /**
     * `UpdateWaterTankStorage`: each tank adds or draws the tick's net flow,
     * then the kinds of network-fed and rain-fed tanks follow their volumes.
     */
    method UpdateWaterTankStorage()
      requires Distinct(things)
      modifies things`comps
      ensures Comps(things) == StorageUpdate(old(Comps(things)))
    {
      ApplyTankFlows();
      ClearEmptyNetTanks();
      MarkRainTanks();
    }

    /** The output-kind loop of `UpdateWaterType`: the blend of every output's kind, activated or not. */
    method BlendOutputKinds() returns (curWaterType: WaterType)
      ensures curWaterType == BlendAll(OutputKinds(Comps(things)))
    {
      ghost var os := OutputKinds(Comps(things));
      curWaterType := NoWater;
      for i := 0 to |things|
        invariant curWaterType == BlendAll(os[..i])
      {
        assert os[..i + 1][..i] == os[..i];
        var c := things[i].comps;
        if c.output.Some? {
          var w := c.output.value.waterType;
          if w != NoWater {
            if curWaterType == NoWater {
              curWaterType := w;
            } else {
              curWaterType := MinByOrdinal(w, curWaterType);
            }
          }
        }
      }
      assert os[..|things|] == os;
    }

    /**
     * The push loop of `UpdateWaterType`: every network-fed tank takes kind w.
     * It reads every tank's input component without a null check.
     */
    method PushKind(w: WaterType)
      requires Distinct(things)
      requires TanksHaveInputs(Comps(things))
      modifies things`comps
      ensures Comps(things) == PushType(old(Comps(things)), w)
    {
      ghost var cs := Comps(things);
      for i := 0 to |things|
        invariant forall j :: 0 <= j < i ==> things[j].comps == PushStep(cs[j], w)
        invariant forall j :: i <= j < |things| ==> things[j].comps == cs[j]
      {
        var b := things[i];
        assert b.comps == cs[i];
        if b.comps.tank.Some? {
          var inputComp := b.comps.input.value;
          if inputComp.inputType == WaterNetSource {
            b.comps := b.comps.(tank := Some(b.comps.tank.value.(storedType := w)));
          }
        }
      }
    }

    /**
     * The tank-kind loop of `UpdateWaterType`: the net's kind is reassigned at
     * every tank, so it ends as the blend of the tanks' kinds, and is left as
     * it was when there is no tank.
     */
    method TakeTankKinds()
      modifies this`waterType
      ensures waterType == if HasTank(Comps(things)) then BlendAll(TankKinds(Comps(things))) else old(waterType)
    {
      ghost var cs := Comps(things);
      ghost var ts := TankKinds(cs);
      var curWaterType := NoWater;
      for i := 0 to |things|
        invariant curWaterType == BlendAll(ts[..i])
        invariant waterType == if HasTank(cs[..i]) then curWaterType else old(waterType)
      {
        assert ts[..i + 1][..i] == ts[..i];
        var c := things[i].comps;
        if c.tank.Some? {
          var tankWaterType := c.tank.value.storedType;
          if tankWaterType != NoWater {
            if curWaterType == NoWater {
              curWaterType := tankWaterType;
            } else {
              curWaterType := MinByOrdinal(tankWaterType, curWaterType);
            }
          }
          waterType := curWaterType;
          assert cs[..i + 1][i].tank.Some?;
        } else {
          assert HasTank(cs[..i + 1]) == HasTank(cs[..i]) by {
            if HasTank(cs[..i + 1]) {
              var k :| 0 <= k < i + 1 && cs[..i + 1][k].tank.Some?;
              assert k < i && cs[..i][k].tank.Some?;
            }
            if HasTank(cs[..i]) {
              var k :| 0 <= k < i && cs[..i][k].tank.Some?;
              assert cs[..i + 1][k].tank.Some?;
            }
          }
        }
      }
      assert ts[..|things|] == ts;
      assert cs[..|things|] == cs;
    }

    /**
     * `UpdateWaterType`.  The push loop reads every tank's input component
     * without a null check, so when an output produces a kind every tank
     * must have one.
     */
    method UpdateWaterType()
      requires Distinct(things)
      requires BlendAll(OutputKinds(Comps(things))) != NoWater ==> TanksHaveInputs(Comps(things))
      modifies this`waterType, things`comps
      ensures (Comps(things), waterType) == TypeUpdate(old(Comps(things)), old(waterType))
    {
      ghost var cs := Comps(things);
      var curWaterType := BlendOutputKinds();
      if curWaterType != NoWater {
        waterType := curWaterType;
        PushKind(curWaterType);
      } else {
        TakeTankKinds();
        assert Comps(things) == TypeUpdate(cs, old(waterType)).0;
      }
    }
  }
}
