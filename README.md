# MizuMod water networks in Dafny

This project models the water-network engine of MizuMod, a RimWorld mod. It
also models the mod's small helper functions about pipes, terrain and
drinkable items.

A water network (`WaterNet`) is a list of member buildings. Each member
carries up to three components:

- a tank, which stores a volume of one kind of water;
- an input, which takes a flow either from the net or from the rain;
- an output, which produces a flow of one kind of water.

The network manager calls four update phases on each net:

1. It sums the flow of the activated outputs.
2. It hands that total to the inputs: constant-demand inputs first, all or
   nothing, in list order; then the leftover is shared evenly among the
   "any" inputs, round after round; rain inputs get their maximum times the
   rain rate.
3. Each tank adds or draws its net flow divided by 60000, and the kind it
   holds follows its volume.
4. The net takes the kind of least ordinal that its outputs produce, or,
   failing that, the one its tanks hold.

`DrawWaterVolume` and `AddWaterVolume` draw a volume from the tanks, or spread
one over them. Each splits what remains evenly among the eligible tanks until
nothing remains or no tank qualifies.

Layout:

- `wrappers.dfy`: `Option`, real and integer min/max, and `Distinct`.
- `water_types.dfy`: the `WaterType` enumeration with its ordinals, and
  blending by least ordinal.
- `water_net_spec.dfy` (module `WaterNetSpec`): the member components as
  values, and one function per loop or phase of the net. All properties of
  the net are proved here as lemmas about these functions.
- `water_net.dfy` (module `WaterNets`): the classes.
  - `WaterNet` has `things: seq<Building>` and the net's scalar fields.
  - `Building` has a `waterNet` back-reference and its components.
  - `NextIdCounter` holds the static ID counter.

  Every method that walks the members ensures
  `Comps(things) == F(old(Comps(things)), …)` for the matching spec function
  `F`. The lemmas about `F` are therefore facts about the class.
- `extensions.dfy`: the helpers of `Mizu_Extensions.cs`, in four modules:
  - `Connectivity`: pipe links and the unroofed share;
  - `Terrain`: name-based terrain classes;
  - `Preference`;
  - `WaterItems`: item water amounts.

Modelling choices:

- Flows and volumes are exact `real`s.
- Each member's components are a value stored in its `Building`. Each loop
  over the members updates them in place, one member at a time.
- The source filters each loop with `FindAll` before running it. The model
  tests the same filter at each member's turn instead. That gives the same
  result because no loop body changes another member.
- The phase methods assume the member list is duplicate-free
  (`Distinct(things)`). `WaterNet.Valid` states that, together with the
  back-references. `AddThing` keeps it when the building is new to the net.
  `RemoveThing` and `ClearThings` always keep it.
- `UpdateWaterType` requires that, when an output produces a kind, every
  tank has an input component. The source reads that component without a
  null check (`WaterNet.cs:361-362`).
- Kinds blend by least ordinal, as the code does with `Math.Min` on the enum
  values (`WaterNet.cs:350`, `WaterNet.cs:381`). Under the assumed ordinals,
  clear water mixed with sea water gives clear water.
- The sharing loop of `UpdateInputWaterFlow` ASSIGNS each Any input's flow
  every round rather than adding to it (`WaterNet.cs:226-227`). The model
  keeps this. `AnyLoopReassignsFlow` shows a net in which
  `LastInputWaterFlow` is 10 while the flows sum to 5.

## Model

| member | source | states |
|---|---|---|
| WaterNets.NextIdCounter.ClearNextID | Source/Mizu_Assembly/WaterNet.cs:14-18 | after the call the next net is numbered 1 |
| WaterNets.WaterNet.constructor | Source/Mizu_Assembly/WaterNet.cs:44-49 | the new net takes the counter's value as ID, the counter moves on by one (so successive nets get increasing IDs), the net is empty with kind NoWater, and membership is consistent |
| WaterNets.WaterNet.WithThing | Source/Mizu_Assembly/WaterNet.cs:51-54 | as the plain constructor, and the one member is `thing`, which points back to the net |
| WaterNets.WaterNet.AddThing | Source/Mizu_Assembly/WaterNet.cs:56-60 | the building points to this net and is appended; a consistent net stays consistent when the building was not already a member |
| WaterNets.WaterNet.RemoveThing | Source/Mizu_Assembly/WaterNet.cs:62-66 | the building's back-reference is null and its first occurrence is removed (`RemoveFirst`); a consistent net stays consistent and no longer holds it |
| WaterNets.RemoveFirstMultiset | Source/Mizu_Assembly/WaterNet.cs:65 | `List.Remove` takes away exactly one occurrence of the element, and nothing when it is absent |
| WaterNets.RemoveFirstAppend | Source/Mizu_Assembly/WaterNet.cs:56-66 | removing a building just added to a net that did not hold it restores the old list |
| WaterNets.RemoveFirstDistinct | Source/Mizu_Assembly/WaterNet.cs:65 | on a duplicate-free list, removal keeps it duplicate-free and leaves exactly the other members |
| WaterNets.WaterNet.ClearThings | Source/Mizu_Assembly/WaterNet.cs:68-75 | the list is empty, every former member's back-reference is null, and the net is consistent |
| WaterNets.WaterNet.StoredWaterVolume | Source/Mizu_Assembly/WaterNet.cs:78-92 | the result is the sum of the stored volumes over the members with a tank |
| WaterNets.WaterNet.DrawWaterVolume | Source/Mizu_Assembly/WaterNet.cs:95-118 | the loop terminates and leaves the members as `DrawLoop` does from the old members and `amount` |
| WaterNets.WaterNet.DrawTurn | Source/Mizu_Assembly/WaterNet.cs:112-116 | one round of the draw loop: the loop from the new members and the remainder equals the loop from the old ones, and the count of non-empty tanks plus the remainder flag drops |
| WaterNetSpec.DrawLoopRemoves | Source/Mizu_Assembly/WaterNet.cs:95-118 | with valid tanks and a non-negative request, the volume removed is exactly min(amount, stored total), so never more than asked or than stored, and tanks stay valid |
| WaterNetSpec.DrawLoopShape | Source/Mizu_Assembly/WaterNet.cs:95-118 | the draw loop changes only tanks' stored volumes, and never raises one |
| WaterNetSpec.DrawRoundFacts | Source/Mizu_Assembly/WaterNet.cs:101-116 | one round yields in total between 0 and `avg` times the number of non-empty tanks, lowers the stored total by what it yields, and leaves fewer non-empty tanks when it yields less than was split |
| WaterNetSpec.DrawThirtyAndTwenty | Source/Mizu_Assembly/WaterNet.cs:95-118 | tanks holding 30 and 20 asked for 100 both end empty |
| WaterNets.WaterNet.AddWaterVolume | Source/Mizu_Assembly/WaterNet.cs:120-144 | the loop terminates and leaves the members as `AddLoop` does from the old members and `amount` |
| WaterNets.WaterNet.AddTurn | Source/Mizu_Assembly/WaterNet.cs:138-142 | one round of the add loop: the loop from the new state equals the loop from the old one, and the measure drops |
| WaterNetSpec.AddLoopAdds | Source/Mizu_Assembly/WaterNet.cs:120-144 | with valid tanks and a non-negative amount, the volume added is exactly min(amount, room left in network-fed tanks), and tanks stay valid |
| WaterNetSpec.AddThenDrawRestores | Source/Mizu_Assembly/WaterNet.cs:95-144 | adding a volume the network-fed tanks have room for and then drawing the same volume leaves the stored total unchanged |
| WaterNetSpec.AddLoopShape | Source/Mizu_Assembly/WaterNet.cs:126-131 | only network-fed tanks change, and only by a rise in stored volume; rain-fed tanks and all other members are unchanged |
| WaterNetSpec.AddRoundFacts | Source/Mizu_Assembly/WaterNet.cs:126-142 | one round places in total between 0 and `avg` times the number of accepting tanks, moves what it places from spare room into storage, and leaves fewer accepting tanks when it places less than was split |
| WaterNets.WaterNet.UpdateOutputWaterFlow | Source/Mizu_Assembly/WaterNet.cs:146-162 | `LastOutputWaterFlow` becomes the sum of the flows of the activated outputs only |
| WaterNetSpec.OutputFlowSumFacts | Source/Mizu_Assembly/WaterNet.cs:149-161 | with non-negative output flows the total is non-negative, at least every activated output's flow, and 0 when no output is activated |
| WaterNets.WaterNet.UpdateInputWaterFlow | Source/Mizu_Assembly/WaterNet.cs:164-253 | the members' inputs and `LastInputWaterFlow` become those of `InputPhase` from the old members, `LastOutputWaterFlow` and the rain rate |
| WaterNets.WaterNet.AllocateNetInputs | Source/Mizu_Assembly/WaterNet.cs:166-230 | reset, constant pass and sharing loop together leave the members and the leftover of `NetAllocation` |
| WaterNets.WaterNet.ResetInputFlows | Source/Mizu_Assembly/WaterNet.cs:166-170 | every input's flow becomes 0 and nothing else changes |
| WaterNets.WaterNet.GrantConstantInputs | Source/Mizu_Assembly/WaterNet.cs:175-198 | the members and leftover budget are those of the in-order constant pass `AllocateConstant` |
| WaterNetSpec.AllocateConstantAt | Source/Mizu_Assembly/WaterNet.cs:189-198 | each member leaves the constant pass as its own turn made it, given the budget its predecessors left |
| WaterNetSpec.AllocateConstantCovered | Source/Mizu_Assembly/WaterNet.cs:189-198 | when the budget covers the total demand of the activated network-fed Constant inputs, each of them is served its maximum, every other member is unchanged, and exactly budget - demand is left |
| WaterNetSpec.AllocateConstantBudget | Source/Mizu_Assembly/WaterNet.cs:189-198 | from a non-negative budget and non-negative maxima, the budget left stays between 0 and its start |
| WaterNets.WaterNet.ShareAnyInputs | Source/Mizu_Assembly/WaterNet.cs:201-230 | the loop terminates with the members and leftover of `AnyLoop` |
| WaterNets.WaterNet.ShareTurn | Source/Mizu_Assembly/WaterNet.cs:222-229 | one sharing round: the loop from the new state equals the loop from the old one, and the measure drops |
| WaterNets.WaterNet.ShareToEach | Source/Mizu_Assembly/WaterNet.cs:223-229 | each eligible Any input's flow is SET to min(avg, max), and the budget falls by what was set |
| WaterNetSpec.AnyRoundFacts | Source/Mizu_Assembly/WaterNet.cs:203-229 | a round deducts at most `avg` times the number of eligible inputs, leaves fewer eligible inputs when it deducts less than was split, and keeps flows non-negative |
| WaterNetSpec.AnyLoopBudget | Source/Mizu_Assembly/WaterNet.cs:201-230 | the leftover stays in [0, budget], and the loop stops only when the budget is used up or no Any input is below its maximum |
| WaterNetSpec.AnyLoopShape | Source/Mizu_Assembly/WaterNet.cs:201-230 | the sharing loop changes only input flows, leaves non-Any members as they were, and keeps Any flows within their maxima |
| WaterNets.WaterNet.ApplyRain | Source/Mizu_Assembly/WaterNet.cs:236-252 | every activated rain input's flow becomes max x rain rate and nothing else changes |
| WaterNetSpec.InputPhaseFrame | Source/Mizu_Assembly/WaterNet.cs:164-253 | the input phase changes nothing but input flows |
| WaterNetSpec.InputPhaseLastInput | Source/Mizu_Assembly/WaterNet.cs:189-232 | from a non-negative output total and maxima, 0 <= `LastInputWaterFlow` <= `LastOutputWaterFlow` |
| WaterNetSpec.InputPhaseConstantsCovered | Source/Mizu_Assembly/WaterNet.cs:164-253 | when the output total covers the total demand of the activated network-fed Constant inputs, each of them ends the phase with exactly its maximum (rain-fed Constant inputs are set by the rain loop instead) |
| WaterNetSpec.InputPhaseConstant | Source/Mizu_Assembly/WaterNet.cs:190-198 | an activated network-fed Constant input ends with exactly its maximum when the budget left at its turn covers it, and with 0 otherwise |
| WaterNetSpec.InputPhaseAny | Source/Mizu_Assembly/WaterNet.cs:201-230 | every activated network-fed Any input ends with a flow between 0 and its maximum |
| WaterNetSpec.InputPhaseRainAndIdle | Source/Mizu_Assembly/WaterNet.cs:166-252 | an activated rain input ends with max x rain rate, and an input that is not activated ends with flow 0 |
| WaterNetSpec.InputScenarioTwoAny | Source/Mizu_Assembly/WaterNet.cs:201-232 | output 10 and two Any inputs of maximum 8: each gets 5, and `LastInputWaterFlow` is 10 |
| WaterNetSpec.InputScenarioConstantThenAny | Source/Mizu_Assembly/WaterNet.cs:189-232 | output 10, a Constant input of maximum 6 and an Any input of maximum 8: they get 6 and 4 |
| WaterNetSpec.AnyLoopReassignsFlow | Source/Mizu_Assembly/WaterNet.cs:226-232 | Any inputs of maxima 2 and 8 under output 10 end at 2 and 3 (the second round overwrites 5 with 3), while `LastInputWaterFlow` is 10 |
| WaterNets.WaterNet.UpdateWaterTankStorage | Source/Mizu_Assembly/WaterNet.cs:255-328 | the members become `StorageUpdate` of the old members: the flow loop, then the two kind loops |
| WaterNets.WaterNet.ApplyTankFlows | Source/Mizu_Assembly/WaterNet.cs:257-293 | each tank adds (in - out)/60000 through its own add, or draws the opposite through its own draw, and members without a tank are unchanged |
| WaterNets.WaterNet.ClearEmptyNetTanks | Source/Mizu_Assembly/WaterNet.cs:295-308 | every network-fed tank at volume 0 takes kind NoWater, and nothing else changes |
| WaterNets.WaterNet.MarkRainTanks | Source/Mizu_Assembly/WaterNet.cs:310-327 | every rain-fed tank takes NoWater at volume 0 and RainWater otherwise, and nothing else changes |
| WaterNetSpec.StorageStepVolume | Source/Mizu_Assembly/WaterNet.cs:273-292 | a valid tank's volume becomes clamp(stored + (in - out)/60000, 0, capacity), capacity and other components are untouched, the tank stays valid, and a member without a tank is unchanged |
| WaterNetSpec.StorageStepKind | Source/Mizu_Assembly/WaterNet.cs:295-327 | a network-fed tank at volume 0 holds NoWater and otherwise keeps its kind; a rain-fed tank holds NoWater iff its volume is 0, else RainWater; a tank without an input keeps its kind |
| WaterNetSpec.StorageUpdateFacts | Source/Mizu_Assembly/WaterNet.cs:255-328 | the update acts member by member as above, and valid tanks stay valid |
| WaterNets.WaterNet.UpdateWaterType | Source/Mizu_Assembly/WaterNet.cs:330-388 | the members and the net's kind become `TypeUpdate` of the old members and old kind |
| WaterNets.WaterNet.BlendOutputKinds | Source/Mizu_Assembly/WaterNet.cs:332-353 | the result is the blend of every output's kind, whether the output is activated or not |
| WaterNets.WaterNet.PushKind | Source/Mizu_Assembly/WaterNet.cs:356-366 | every network-fed tank takes the given kind and nothing else changes |
| WaterNets.WaterNet.TakeTankKinds | Source/Mizu_Assembly/WaterNet.cs:368-386 | the net's kind becomes the blend of the tanks' kinds when there is a tank, and stays as it was when there is none |
| WaterNetSpec.NetWaterTypeFromOutputs | Source/Mizu_Assembly/WaterNet.cs:332-358 | when some output produces a kind, the net's kind is one that an output produces, and its ordinal is at most that of every produced kind |
| WaterNetSpec.NetWaterTypeFromTanks | Source/Mizu_Assembly/WaterNet.cs:368-386 | with no producing output but some tank, the net's kind is NoWater iff no tank holds a kind, and otherwise the tank kind of least ordinal |
| WaterNetSpec.NetWaterTypeKept | Source/Mizu_Assembly/WaterNet.cs:368-386 | with no producing output and no tank, the net keeps its previous kind |
| WaterNetSpec.TypeUpdateMembers | Source/Mizu_Assembly/WaterNet.cs:355-366 | when an output produces a kind, every network-fed tank takes the net's new kind and every other member is unchanged; otherwise no member changes |
| WaterTypes.BlendAllIsMinimum | Source/Mizu_Assembly/WaterNet.cs:342-351 | blending gives NoWater iff every kind is NoWater, and otherwise one of the kinds, of least ordinal among those that are not NoWater |
| WaterTypes.MinByOrdinal | Source/Mizu_Assembly/WaterNet.cs:350 | `Math.Min` on ordinals returns one of its two kinds, of ordinal at most both |
| WaterTypes.OrdinalRoundTrip | Source/Mizu_Assembly/WaterNet.cs:350 | casting a kind to its ordinal and back gives the kind |
| Connectivity.FindCommonCell | Source/MizuMod/Mizu_Extensions.cs:104-130 | the nested loops with their early breaks find a match exactly when some cell of the first list is a cell of the second |
| Connectivity.IsOutputTo | Source/MizuMod/Mizu_Extensions.cs:93-133 | the result is true iff the connector checks pass (or are ignored), some output connector of t1 lies in t2's footprint, and some cell of t1's footprint is an input connector of t2 |
| Connectivity.NoConnectorNoLink | Source/MizuMod/Mizu_Extensions.cs:95-102 | without `ignoreActivate`, missing connectors rule out the link and the two-way link, and the one-way link reduces to the reverse direction |
| Connectivity.IgnoreActivateWeakens | Source/MizuMod/Mizu_Extensions.cs:95-102 | ignoring activation only adds links |
| Connectivity.IsConnectedOr | Source/MizuMod/Mizu_Extensions.cs:135-138 | the result is a link in at least one direction |
| Connectivity.IsConnectedAnd | Source/MizuMod/Mizu_Extensions.cs:139-142 | the result is a link in both directions |
| Connectivity.ConnectedSymmetric | Source/MizuMod/Mizu_Extensions.cs:135-142 | both connection tests are symmetric in their buildings, and a two-way link is a link |
| Connectivity.PumpFeedsPipe | Source/MizuMod/Mizu_Extensions.cs:93-133 | a pump whose output connector lies on a pipe that takes input from the pump's cell feeds it, and the pipe does not feed the pump |
| Connectivity.GetUnroofedPercent | Source/MizuMod/Mizu_Extensions.cs:293-306 | 0 for an empty footprint, else unroofed cells / all cells; always in [0, 1], and 1 exactly when no cell is roofed |
| Connectivity.CountUnroofedBounds | Source/MizuMod/Mizu_Extensions.cs:295-301 | the unroofed count is at most the cell count, equal to it iff no cell is roofed, and 0 iff every cell is |
| Terrain.TerrainTypeMatchesCanGetWater | Source/MizuMod/Mizu_Extensions.cs:144-210 | `GetWaterTerrainType` is not NoWater iff `CanGetWater`; `ToWaterType` is not NoWater iff `CanGetWater` or the name mentions "Mud" |
| Terrain.CanGetWaterByName | Source/MizuMod/Mizu_Extensions.cs:165-210 | sea and river names mention "Water", so `CanGetWater` holds iff the name mentions "Water" or "Marsh" |
| Terrain.LakeIsNeitherSeaNorRiver | Source/MizuMod/Mizu_Extensions.cs:175-178 | a lake or pond is never sea or river, and is raw water |
| Terrain.OceanTakesPrecedence | Source/MizuMod/Mizu_Extensions.cs:144-198 | a name containing "WaterOcean" is sea water in both classifications, whatever else it mentions |
| Terrain.ClassificationsAgree | Source/MizuMod/Mizu_Extensions.cs:144-205 | the two classifications agree on raw water away from marsh and mud, a name `GetWaterTerrainType` calls mud is mud water in `ToWaterType` too, and they agree exactly on sea |
| Terrain.NamedTerrains | Source/MizuMod/Mizu_Extensions.cs:144-205 | "WaterOceanDeep" is sea, "Marsh" is mud terrain, "Mud" is mud water |
| Preference.PreferabilityFacts | Source/MizuMod/Mizu_Extensions.cs:308-325 | the result is Undefined iff the kind is NoWater or RainWater, and distinct ranked kinds get distinct ranks |
| WaterItems.GetWaterAmount | Source/MizuMod/Mizu_Extensions.cs:36-43 | never negative, 0 unless the thing has an item-type source, and that source's amount whenever the amount is not negative |
| WaterItems.CanGetWaterIffAmount | Source/MizuMod/Mizu_Extensions.cs:26-43 | a thing can give water iff its water amount is positive |
| WaterItems.CalculateAmountsBounds | Source/MizuMod/Mizu_Extensions.cs:59-75 | amount 0 gives (0, 0); otherwise the units taken are max(1, min(units needed, stack, at-once limit)): at least one, at least that minimum, and beyond the one-unit floor at most each of the three; the water got is units x amount |
| WaterItems.CalculateAmountsStackBinds | Source/MizuMod/Mizu_Extensions.cs:71-74 | one-unit items in a stack of 3 with at-once limit 10, 10 wanted: 3 units, 3 water |
| WaterItems.CalculateAmountsMeetDemand | Source/MizuMod/Mizu_Extensions.cs:71-74 | when stack and at-once limits do not bind, the water got covers the demand with less than one unit to spare |
| WaterItems.Ceil | Source/MizuMod/Mizu_Extensions.cs:71 | the ceiling is the least integer not below its argument |
| WaterItems.TotalWater | Source/MizuMod/Mizu_Extensions.cs:77-91 | the result is `SumWater`: amount x count summed over item-type sources of positive amount only |
| WaterItems.SumWaterFacts | Source/MizuMod/Mizu_Extensions.cs:77-91 | with non-negative counts the total is non-negative, at least every line's share, and 0 when no line counts |

## Left out

- The network manager (`MapComponent_WaterNetManager`), which builds and merges nets, is not part of this model. The `Manager` property is omitted.
- The pawn jobs (`JobDriver_DrawFromWaterNet`, `JobDriver_DoBillFaucet`) and the one-line map component only call into the net or into base classes that are not shown.
- The components' own behaviour is not in the modelled files. The tank's draw and add are given an assumed contract in `WaterNetSpec`:
  - draw yields min(req, stored);
  - add takes min(req, capacity - stored);
  - neither changes the stored kind.
- Input maxima and output flows are assumed non-negative where a lemma needs it (`MaxFlowsNonNeg`, `OutputFlowsNonNeg`).
- The files declaring the enumerations `WaterType`, `WaterTerrainType` and `WaterPreferability` are not part of this model. `WaterType`'s ordinals are assumed to be NoWater = 0, ClearWater = 1, NormalWater = 2, RawWater = 3, MudWater = 4, SeaWater = 5, RainWater = 6; the blend results depend on that order.
- Single-precision floating point: flows and volumes are exact reals, and the exact-zero volume checks (`WaterNet.cs:304`, `WaterNet.cs:319`) are read over reals.
- Termination of the three `while` loops (`WaterNet.cs:99-117`, `WaterNet.cs:124-143`, `WaterNet.cs:201-230`) is proved only over exact reals. In single precision the source can loop forever: once the remainder is so small that remainder / count rounds to 0, every tank or input takes 0 and the remainder never falls.
- 32-bit integers: IDs (`nextID++`, `WaterNet.cs:48`) and the `(int)Math.Ceiling(...)` cast (`Mizu_Extensions.cs:71`) are C# `int`s, and the model uses unbounded integers. Counter wrap-around and an out-of-range cast are not modelled.
- The rain rate comes from the map's weather manager. Here it is a parameter of `UpdateInputWaterFlow`.
- `GetWaterAmount` and `TotalWater` take the water-source component as a record (type, amount, at-once limit) rather than looking it up on the thing or def.
- `GetUnroofedPercent` takes the roof test as a function `roofed: Cell -> bool`. The `Roofed(map)` query is not modelled.
- Not modelled, because they read game state that is not shown:
  - `GetWaterTerrainType(Caravan)` reads the world grid;
  - `CanManipulate`, `CanDrinkFromTerrain` and `IsRotSoonForWater` read pawn and rot state;
  - `CanDrinkWaterNow` reads whether the thing is burning;
  - `water(needs)` looks up a need;
  - `GetWaterPreferability` reads a def dictionary.
- `GetWaterCalculateAmounts` also logs an error for an amount of 0. The log is not modelled; the returned values are.
- `WaterNet` phase methods: they assume a duplicate-free member list. The source does not check this (`AddThing` appends unconditionally), and the model does not capture a net that holds a member twice.
- WaterNets.WaterNet.AddThing: its consistency guarantee is stated only for a building not already in the net. Adding a member twice would make the list hold it twice, as `List.Add` does.
