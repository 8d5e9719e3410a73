/** A spaceship actor and its three passes: the base pass (`prepareBaseData`
    for a spaceship, lines 37-58 and `_prepareBaseDataSpaceship`, lines
    382-426, with `sortPassengers`), the item bonus pass
    (`_spaceshipItemModifiers`, lines 316-336) and the derived pass
    (`_prepareDerivedDataSpaceship`, lines 446-457). */
module SpaceshipActor {
  import opened Common
  import opened Items
  import opened CharacterRules
  import opened Passengers
  import opened SpaceshipRules

  datatype HullData = HullData(base: Hull, baseMod: Hull, total: Hull)
  datatype Crew = Crew(min: int, typical: int, current: int)

  /** The hull value and the crew row of each ship size, smallest first. */
  datatype ShipConfig = ShipConfig(hullTable: seq<Hull>, crewTable: seq<CrewRow>)

  datatype SpaceshipData = SpaceshipData(
    useBallisticArmor: bool,
    wealth: WealthFlags,
    passengers: seq<Passenger>,
    conductor: string,
    handling: Handling,
    defenseTotal: int,
    pob: int,
    losses: map<string, map<string, Loss>>,
    systems: Systems,
    size: int,
    sizeNumeric: int,
    hull: HullData,
    crew: Crew,
    crewPenalty: Option<int>,
    itemMods: map<string, int>)

  /** The normal-severity tracks the base pass reads (lines 405-411). */
  predicate HasBaseTracks(losses: map<string, map<string, Loss>>) {
    "normal" in losses && "sensors" in losses["normal"] && "maneuverability" in losses["normal"]
  }

  /** The normal-severity tracks the derived pass reads (lines 460 and 475). */
  predicate HasDerivedTracks(losses: map<string, map<string, Loss>>) {
    "normal" in losses && "sensors" in losses["normal"] && "hull" in losses["normal"]
  }

  /** The size indexes both tables (a size outside the crew table makes the
      source fail when it reads the row's minimum). */
  predicate SizeInTables(size: int, cfg: ShipConfig) {
    1 <= size <= |cfg.crewTable| && size <= |cfg.hullTable|
  }

  /** The item bonus stored under `key`, if any. */
  function BonusOf(itemMods: map<string, int>, key: string): (r: Option<int>)
    ensures r.Some? <==> key in itemMods
  {
    if key in itemMods then Some(itemMods[key]) else None
  }

  /** The state the base pass leaves. Unlike a vehicle's, the defense is not
      reset before the conductor's share is added. */
  function ShipBase(d: SpaceshipData, items: seq<Item>, s: Settings, reg: Registry, cfg: ShipConfig): (r: SpaceshipData)
    requires ConductorHasAbility(d.passengers, reg, d.conductor, d.handling.useAbl)
    requires HasBaseTracks(d.losses) && SizeInTables(d.size, cfg)
    ensures r.conductor == d.conductor && r.handling == d.handling && r.itemMods == d.itemMods
    ensures r.size == d.size && r.sizeNumeric == d.size && r.crew.current == d.crew.current
    ensures r.useBallisticArmor == s.useBallisticArmor
    ensures r.pob == |r.passengers| <= |d.passengers|
    ensures r.losses.Keys == d.losses.Keys
  {
    var kept := SpliceAll(ResolvedAll(d.passengers, reg, d.conductor), InvalidIndices(d.passengers, reg));
    SpliceAllLength(ResolvedAll(d.passengers, reg, d.conductor), InvalidIndices(d.passengers, reg));
    var normal := d.losses["normal"];
    var row := cfg.crewTable[d.size - 1];
    d.(useBallisticArmor := s.useBallisticArmor,
       wealth := WealthFor(d.wealth, s.wealthType),
       passengers := kept,
       defenseTotal := d.defenseTotal + ConductorBonus(d.passengers, reg, d.conductor, d.handling.useAbl, HandlingFocusValue(items, d.handling)),
       pob := |kept|,
       losses := FilledLosses(d.losses),
       systems := SystemTotals(d.systems, normal["sensors"].actual, normal["maneuverability"].actual),
       sizeNumeric := d.size,
       hull := d.hull.(base := cfg.hullTable[d.size - 1]),
       crew := d.crew.(min := row.min, typical := row.typical),
       crewPenalty := CrewPenaltyOf(d.size, d.crew.current, row.min, cfg.crewTable))
  }

  /** What the base pass promises: people on board counts the new passenger
      list; the defense only grows by the conductor's share; the crew row and
      hull base are the ship size's; the crew penalty is 0 with enough crew
      and otherwise an even number in [-2 * size, -2]; the sensor total is
      base and modifier less the boxes lost on the normal sensors track. */
  lemma ShipBaseFacts(d: SpaceshipData, items: seq<Item>, s: Settings, reg: Registry, cfg: ShipConfig)
    requires ConductorHasAbility(d.passengers, reg, d.conductor, d.handling.useAbl)
    requires HasBaseTracks(d.losses) && SizeInTables(d.size, cfg)
    ensures ShipBase(d, items, s, reg, cfg).pob == |ShipBase(d, items, s, reg, cfg).passengers|
    ensures !reg.ready ==> ShipBase(d, items, s, reg, cfg).defenseTotal == d.defenseTotal
    ensures (forall j :: 0 <= j < |d.passengers| ==> !IsConductor(reg, d.passengers[j], d.conductor)) ==>
      ShipBase(d, items, s, reg, cfg).defenseTotal == d.defenseTotal
    ensures ShipBase(d, items, s, reg, cfg).crew.min == cfg.crewTable[d.size - 1].min
    ensures ShipBase(d, items, s, reg, cfg).hull.base == cfg.hullTable[d.size - 1]
    ensures d.crew.current >= cfg.crewTable[d.size - 1].min ==> ShipBase(d, items, s, reg, cfg).crewPenalty == Some(0)
    ensures d.crew.current < cfg.crewTable[d.size - 1].min ==>
      ShipBase(d, items, s, reg, cfg).crewPenalty.Some? &&
      ShipBase(d, items, s, reg, cfg).crewPenalty.value % 2 == 0 &&
      -2 * d.size <= ShipBase(d, items, s, reg, cfg).crewPenalty.value <= -2
    ensures ShipBase(d, items, s, reg, cfg).systems.sensors.total ==
      d.systems.sensors.base + d.systems.sensors.mod - d.losses["normal"]["sensors"].actual
  {
    if d.crew.current < cfg.crewTable[d.size - 1].min {
      CrewPenaltyRange(d.size, d.crew.current, cfg.crewTable);
    }
    if forall j :: 0 <= j < |d.passengers| ==> !IsConductor(reg, d.passengers[j], d.conductor) {
      NoConductorNoBonus(d.passengers, reg, d.conductor, d.handling.useAbl, HandlingFocusValue(items, d.handling), |d.passengers|);
    }
  }

  /** The state the derived pass leaves: the size-shifted hull, the plated
      hull and the sensor total with its item bonus. */
  function ShipDerived(d: SpaceshipData, cfg: ShipConfig): (r: SpaceshipData)
    requires HasDerivedTracks(d.losses) && |cfg.hullTable| >= 1
    ensures r == d.(hull := r.hull, systems := r.systems)
    ensures r.hull.base == d.hull.base
    ensures r.systems == d.systems.(sensors := d.systems.sensors.(total := r.systems.sensors.total))
    ensures OrZero(BonusOf(d.itemMods, "sensorMod")) == 0 ==>
      r.systems.sensors.total == d.systems.sensors.base + d.systems.sensors.mod - d.losses["normal"]["sensors"].actual
  {
    var normal := d.losses["normal"];
    var baseMod := AddSizeMod(cfg.hullTable, d.hull.base, d.sizeNumeric, BonusOf(d.itemMods, "hullMod"));
    d.(hull := d.hull.(
         baseMod := baseMod,
         total := AddHullPlatingLoss(baseMod, normal["hull"].actual, BonusOf(d.itemMods, "hullPlating"))),
       systems := d.systems.(sensors := d.systems.sensors.(
         total := AddSensorBonus(d.systems.sensors.base, d.systems.sensors.mod, BonusOf(d.itemMods, "sensorMod"), normal["sensors"].actual))))
  }

  /** After the base pass, the derived pass raises the sensor total by the
      item bonus, and without a size modifier and with no net plating
      adjustment the hull stays the size's base hull. */
  lemma ShipDerivedFacts(d: SpaceshipData, items: seq<Item>, s: Settings, reg: Registry, cfg: ShipConfig)
    requires ConductorHasAbility(d.passengers, reg, d.conductor, d.handling.useAbl)
    requires HasBaseTracks(d.losses) && HasDerivedTracks(d.losses) && SizeInTables(d.size, cfg)
    ensures HasDerivedTracks(ShipBase(d, items, s, reg, cfg).losses)
    ensures ShipDerived(ShipBase(d, items, s, reg, cfg), cfg).systems.sensors.total ==
      ShipBase(d, items, s, reg, cfg).systems.sensors.total + OrZero(BonusOf(d.itemMods, "sensorMod"))
    ensures (OrZero(BonusOf(d.itemMods, "hullMod")) == 0 &&
             OrZero(BonusOf(d.itemMods, "hullPlating")) == d.losses["normal"]["hull"].actual)
      ==> ShipDerived(ShipBase(d, items, s, reg, cfg), cfg).hull.total == cfg.hullTable[d.size - 1]
  {
    var b := ShipBase(d, items, s, reg, cfg);
    assert b.losses["normal"] == FilledSeverity(d.losses["normal"]);
    SensorBonusOverBaseTotal(d.systems, d.losses["normal"]["sensors"].actual, d.losses["normal"]["maneuverability"].actual, BonusOf(d.itemMods, "sensorMod"));
  }

  class Spaceship {
    var data: SpaceshipData
    var items: seq<Item>

    constructor (data: SpaceshipData, items: seq<Item>)
      ensures this.data == data && this.items == items
    {
      this.data := data;
      this.items := items;
    }

    /** The base pass. `deferred` counts the times the actor was queued for
        after the registry becomes ready. */
    method PrepareBaseData(s: Settings, reg: Registry, cfg: ShipConfig) returns (deferred: nat)
      requires ConductorHasAbility(data.passengers, reg, data.conductor, data.handling.useAbl)
      requires HasBaseTracks(data.losses) && SizeInTables(data.size, cfg)
      modifies this
      ensures items == old(items)
      ensures data == ShipBase(old(data), items, s, reg, cfg)
      ensures deferred == if reg.ready then 0 else |old(data).passengers|
    {
      var focusValue := HandlingFocusValue(items, data.handling);
      var kept, defenseAdd;
      kept, defenseAdd, deferred := PassengerPass(data.passengers, reg, data.conductor, data.handling.useAbl, focusValue);
      var losses := FillLosses(data.losses);
      var normal := data.losses["normal"];
      var row := cfg.crewTable[data.size - 1];
      var penalty := CrewPenalty(data.size, data.crew.current, row.min, cfg.crewTable);
      data := data.(
        useBallisticArmor := s.useBallisticArmor,
        wealth := WealthFor(data.wealth, s.wealthType),
        passengers := kept,
        defenseTotal := data.defenseTotal + defenseAdd,
        pob := |kept|,
        losses := losses,
        systems := SystemTotals(data.systems, normal["sensors"].actual, normal["maneuverability"].actual),
        sizeNumeric := data.size,
        hull := data.hull.(base := cfg.hullTable[data.size - 1]),
        crew := data.crew.(min := row.min, typical := row.typical),
        crewPenalty := penalty);
    }

    /** The item bonus pass: `itemMods` holds, per type, the sum over the
        counting items. */
    method ApplyItemModifiers()
      modifies this
      ensures items == old(items)
      ensures data == old(data).(itemMods := data.itemMods)
      ensures forall t :: t in data.itemMods <==> HasBonusUpTo(items, t, |items|)
      ensures forall t :: t in data.itemMods ==> data.itemMods[t] == BonusSumUpTo(items, t, |items|)
    {
      var bonuses := SpaceshipBonuses(items);
      data := data.(itemMods := bonuses);
    }

    /** The derived pass. */
    method PrepareDerivedData(cfg: ShipConfig)
      requires HasDerivedTracks(data.losses) && |cfg.hullTable| >= 1
      modifies this
      ensures items == old(items)
      ensures data == ShipDerived(old(data), cfg)
    {
      data := ShipDerived(data, cfg);
    }
  }
}
