/** A vehicle actor: its base pass (`prepareBaseData` for a vehicle, lines
    37-58 and `_prepareBaseDataVehicle`, lines 338-376) resets the defense to
    10, runs the passenger pass and records the number of people on board. */
module VehicleActor {
  import opened Items
  import opened CharacterRules
  import opened Passengers

  datatype VehicleData = VehicleData(
    useBallisticArmor: bool,
    wealth: WealthFlags,
    passengers: seq<Passenger>,
    conductor: string,
    handling: Handling,
    defenseTotal: int,
    pob: int)

  /** The state the base pass leaves. */
  function VehicleBase(d: VehicleData, items: seq<Item>, s: Settings, reg: Registry): (r: VehicleData)
    requires ConductorHasAbility(d.passengers, reg, d.conductor, d.handling.useAbl)
    ensures r.conductor == d.conductor && r.handling == d.handling
    ensures r.useBallisticArmor == s.useBallisticArmor
    ensures r.pob == |r.passengers| <= |d.passengers|
  {
    var kept := SpliceAll(ResolvedAll(d.passengers, reg, d.conductor), InvalidIndices(d.passengers, reg));
    SpliceAllLength(ResolvedAll(d.passengers, reg, d.conductor), InvalidIndices(d.passengers, reg));
    d.(useBallisticArmor := s.useBallisticArmor,
       wealth := WealthFor(d.wealth, s.wealthType),
       passengers := kept,
       defenseTotal := 10 + ConductorBonus(d.passengers, reg, d.conductor, d.handling.useAbl, HandlingFocusValue(items, d.handling)),
       pob := |kept|)
  }

  /** What the base pass promises: people on board is the length of the new
      list; with at most one unknown passenger that list is exactly the known
      passengers, refreshed from the registry; the defense is 10 plus the
      conductor's ability and focus when one registered conductor rides, and
      10 when none does. */
  lemma VehicleBaseFacts(d: VehicleData, items: seq<Item>, s: Settings, reg: Registry)
    requires ConductorHasAbility(d.passengers, reg, d.conductor, d.handling.useAbl)
    ensures VehicleBase(d, items, s, reg).pob == |VehicleBase(d, items, s, reg).passengers|
    ensures reg.ready && |InvalidIndices(d.passengers, reg)| <= 1 ==>
      VehicleBase(d, items, s, reg).passengers == KeepKnown(ResolvedAll(d.passengers, reg, d.conductor), reg)
    ensures !reg.ready ==> VehicleBase(d, items, s, reg).passengers == d.passengers
    ensures !reg.ready ==> VehicleBase(d, items, s, reg).defenseTotal == 10
    ensures (forall j :: 0 <= j < |d.passengers| ==> !IsConductor(reg, d.passengers[j], d.conductor)) ==>
      VehicleBase(d, items, s, reg).defenseTotal == 10
    ensures forall k ::
      (reg.ready && 0 <= k < |d.passengers| && IsConductor(reg, d.passengers[k], d.conductor) &&
       (forall j :: 0 <= j < |d.passengers| && j != k ==> !IsConductor(reg, d.passengers[j], d.conductor)))
      ==> VehicleBase(d, items, s, reg).defenseTotal ==
          10 + Lookup(reg, d.passengers[k]).value.abilityTotals[d.handling.useAbl] + HandlingFocusValue(items, d.handling)
  {
    var ps := d.passengers;
    var fv := HandlingFocusValue(items, d.handling);
    if |InvalidIndices(ps, reg)| <= 1 {
      PassPrunesAtMostOneInvalid(ps, reg, d.conductor);
    }
    if forall j :: 0 <= j < |ps| ==> !IsConductor(reg, ps[j], d.conductor) {
      NoConductorNoBonus(ps, reg, d.conductor, d.handling.useAbl, fv, |ps|);
    }
    forall k | reg.ready && 0 <= k < |ps| && IsConductor(reg, ps[k], d.conductor) &&
      (forall j :: 0 <= j < |ps| && j != k ==> !IsConductor(reg, ps[j], d.conductor))
      ensures ConductorBonus(ps, reg, d.conductor, d.handling.useAbl, fv) ==
        Lookup(reg, ps[k]).value.abilityTotals[d.handling.useAbl] + fv
    {
      SingleConductorBonus(ps, reg, d.conductor, d.handling.useAbl, fv, |ps|, k);
    }
  }

  class Vehicle {
    var data: VehicleData
    var items: seq<Item>

    constructor (data: VehicleData, items: seq<Item>)
      ensures this.data == data && this.items == items
    {
      this.data := data;
      this.items := items;
    }

    /** The base pass for a vehicle. `deferred` counts the times the actor
        was queued for after the registry becomes ready. */
    method PrepareBaseData(s: Settings, reg: Registry) returns (deferred: nat)
      requires ConductorHasAbility(data.passengers, reg, data.conductor, data.handling.useAbl)
      modifies this
      ensures items == old(items)
      ensures data == VehicleBase(old(data), items, s, reg)
      ensures deferred == if reg.ready then 0 else |old(data).passengers|
    {
      var focusValue := HandlingFocusValue(items, data.handling);
      var kept, defenseAdd;
      kept, defenseAdd, deferred := PassengerPass(data.passengers, reg, data.conductor, data.handling.useAbl, focusValue);
      data := data.(
        useBallisticArmor := s.useBallisticArmor,
        wealth := WealthFor(data.wealth, s.wealthType),
        passengers := kept,
        defenseTotal := 10 + defenseAdd,
        pob := |kept|);
    }
  }
}
