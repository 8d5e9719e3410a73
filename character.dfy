/** A character actor and the passes that rebuild its derived fields in place:
    the base pass (`prepareBaseData` + `_prepareBaseDataChar`), the item
    modifier pass (`_charItemModifiers`) and the post-modifier totals
    (`_preparePostModCharData`), plus the writes of `applyInjury` and
    `applyHPchange`. The stored `data.data` object is the record `CharData`;
    each pass reassigns the parts the source assigns. */
module CharacterActor {
  import opened Common
  import opened Items
  import opened ItemModifiers
  import opened CharacterRules
  import opened Health

  datatype Ability = Ability(value: int, mod: int, total: int)
  datatype Fatigue = Fatigue(entered: int, value: int, max: int, status: FatigueStatus)
  datatype Toughness = Toughness(gameModeBonus: int, mod: int, total: int)
  datatype Armor = Armor(penalty: int, strain: int, impact: int, ballistic: int, toughness: Toughness)
  datatype Defense = Defense(base: int, mod: int, gameModeBonus: int, total: int)
  datatype Speed = Speed(base: int, mod: int, total: int)
  /** The Defend and Guard Up maneuvers. */
  datatype Maneuver = Maneuver(active: bool, mod: int, defenseBonus: int)
  datatype AllOutAttack = AllOutAttack(active: bool, mod: int, defensePenalty: int)
  /** Health, power points and conviction: current value, stored `set` value, modifier, cap. */
  datatype Pool = Pool(value: int, setValue: int, mod: int, max: int)
  datatype Resources = Resources(base: int, mod: int, total: int)

  datatype CharData = CharData(
    useBallisticArmor: bool,
    wealth: WealthFlags,
    useConviction: bool,
    useToughness: bool,
    useFatigue: bool,
    usePowerPoints: bool,
    fatigue: Fatigue,
    injury: Injury,
    abilities: map<string, Ability>,
    ownedMods: ModBag,
    armor: Armor,
    dmgMod: int,
    testMod: int,
    attackMod: int,
    defense: Defense,
    speed: Speed,
    defend: Maneuver,
    guardUp: Maneuver,
    allOutAttack: AllOutAttack,
    aimMod: int,
    health: Pool,
    powerPoints: Pool,
    conviction: Pool,
    initiativeMod: int,
    initiative: int,
    resources: Resources)

  /** The state after the base pass: the settings flags copied in, the fatigue
      value clamped with its status, the injury multiplier chosen by game mode,
      the degree total and the marks vector. */
  function BaseData(d: CharData, s: Settings): (r: CharData)
    ensures 0 <= r.fatigue.value && (d.fatigue.max >= 0 ==> r.fatigue.value <= d.fatigue.max)
    ensures |r.injury.marksArray| == r.injury.degrees.severeMult
    ensures r.injury.totalDegrees == d.injury.degrees.light + d.injury.degrees.serious + d.injury.degrees.severe
  {
    var v := ClampedFatigue(d.fatigue.entered, d.fatigue.max);
    var deg := d.injury.degrees.(severeMult := SevereMultFor(s.gameMode, d.injury.degrees.severeMult));
    d.(useBallisticArmor := s.useBallisticArmor,
       wealth := WealthFor(d.wealth, s.wealthType),
       useConviction := s.useConviction,
       useToughness := s.useToughness,
       useFatigue := s.useFatigue,
       usePowerPoints := s.usePowerPoints,
       fatigue := d.fatigue.(value := v, status := FatigueStatusOf(v)),
       injury := d.injury.(
         degrees := deg,
         totalDegrees := deg.light + deg.serious + deg.severe,
         marksArray := MarksArray(deg.severeMult, deg.severe, ExpectedMarks(deg) - d.injury.marks)))
  }

  /** Running the base pass on its own output changes nothing: it reads only
      stored inputs (entered fatigue, degrees, marks, settings). */
  lemma BaseDataIdempotent(d: CharData, s: Settings)
    ensures BaseData(BaseData(d, s), s) == BaseData(d, s)
  {
  }

  /** Defense before the floor at 0: the active maneuver bonuses, Dexterity,
      the stored base, the item modifier and the game-mode bonus, less the
      magnitude of the All-Out Attack penalty when that maneuver is active. */
  function RawDefense(dexTotal: int, defense: Defense, defend: Maneuver, guardUp: Maneuver, allOut: AllOutAttack): (r: int)
    ensures !defend.active && !guardUp.active && !allOut.active ==>
      r == dexTotal + defense.base + defense.mod + defense.gameModeBonus
    ensures allOut.active ==>
      r <= (if defend.active then defend.defenseBonus else 0) + (if guardUp.active then guardUp.defenseBonus else 0)
           + dexTotal + defense.base + defense.mod + defense.gameModeBonus
    ensures !allOut.active && (defend.active ==> defend.defenseBonus >= 0) && (guardUp.active ==> guardUp.defenseBonus >= 0) ==>
      r >= dexTotal + defense.base + defense.mod + defense.gameModeBonus
  {
    (if defend.active then defend.defenseBonus else 0)
    + (if guardUp.active then guardUp.defenseBonus else 0)
    + (dexTotal + defense.base + defense.mod + defense.gameModeBonus)
    - (if allOut.active then Abs(allOut.defensePenalty) else 0)
  }

  /** Lines 280-288, `defense.total`: the raw defense floored at 0. */
  function DefenseTotal(dexTotal: int, defense: Defense, defend: Maneuver, guardUp: Maneuver, allOut: AllOutAttack): (t: int)
    ensures t >= 0
    ensures RawDefense(dexTotal, defense, defend, guardUp, allOut) >= 0 ==> t == RawDefense(dexTotal, defense, defend, guardUp, allOut)
    ensures RawDefense(dexTotal, defense, defend, guardUp, allOut) < 0 ==> t == 0
  {
    Max(RawDefense(dexTotal, defense, defend, guardUp, allOut), 0)
  }

  /** Lines 309-310: in currency mode the resources modifier is dropped. */
  function ResourcesTotal(r: Resources, useCurrency: bool): (n: Resources)
    ensures useCurrency ==> n.mod == 0
    ensures !useCurrency ==> n.mod == r.mod
    ensures n.base == r.base && n.total == n.base + n.mod
  {
    var mod := if useCurrency then 0 else r.mod;
    r.(mod := mod, total := r.base + mod)
  }

  /** The state after `_preparePostModCharData`. */
  function PostMod(d: CharData): (r: CharData)
    requires "dex" in d.abilities && "cons" in d.abilities
    ensures r.defense.total >= 0
    ensures r.speed.total == d.abilities["dex"].total - Abs(d.armor.penalty) + d.speed.base + d.speed.mod
    ensures r.wealth.useCurrency ==> r.resources.mod == 0
    ensures r.resources.total == r.resources.base + r.resources.mod
    ensures r.abilities == d.abilities && r.armor.penalty == d.armor.penalty
  {
    var dex := d.abilities["dex"].total;
    d.(defense := d.defense.(total := DefenseTotal(dex, d.defense, d.defend, d.guardUp, d.allOutAttack)),
       armor := d.armor.(toughness := d.armor.toughness.(
         total := d.abilities["cons"].total + d.armor.toughness.gameModeBonus + d.armor.toughness.mod)),
       speed := d.speed.(total := dex - Abs(d.armor.penalty) + d.speed.base + d.speed.mod),
       health := d.health.(max := d.health.mod + d.health.setValue),
       powerPoints := d.powerPoints.(max := d.powerPoints.mod + d.powerPoints.setValue),
       conviction := d.conviction.(max := d.conviction.mod + d.conviction.setValue),
       initiative := d.initiativeMod + dex - d.armor.penalty,
       resources := ResourcesTotal(d.resources, d.wealth.useCurrency))
  }

  /** An ability with modifier `m`: total is value plus modifier. */
  function WithMod(a: Ability, m: int): (r: Ability)
    ensures r.value == a.value && r.mod == m && r.total == a.value + m
  {
    a.(mod := m, total := a.value + m)
  }

  /** The ability mods of lines 264-270: each configured ability takes the
      bag's value for its key (0 when absent); other abilities are left
      alone. */
  function AbilitiesWithMods(abls: map<string, Ability>, mods: ModBag, keys: set<string>): (r: map<string, Ability>)
    ensures r.Keys == abls.Keys
  {
    map k | k in abls :: if k in keys then WithMod(abls[k], ModOr0(mods, k)) else abls[k]
  }

  /** The fan-out of lines 205-259: the bag is stored as `ownedMods` and each
      actor field takes its key's value, absent keys reading as 0; the armor
      penalty and strain are never negative. */
  function FieldsFanout(d: CharData, mods: ModBag): (r: CharData)
    ensures r.armor.penalty >= 0 && r.armor.strain >= 0
    ensures r.abilities == d.abilities
  {
    d.(ownedMods := mods,
       armor := d.armor.(
         penalty := Max(ModOr0(mods, "armorPenalty"), 0),
         strain := Max(ModOr0(mods, "armorStrain"), 0),
         impact := ModOr0(mods, "impactArmor"),
         ballistic := ModOr0(mods, "ballisticArmor"),
         toughness := d.armor.toughness.(mod := ModOr0(mods, "toughness"))),
       dmgMod := ModOr0(mods, "actorDamage"),
       testMod := ModOr0(mods, "testMod"),
       attackMod := ModOr0(mods, "attackMod"),
       defense := d.defense.(mod := ModOr0(mods, "defense")),
       speed := d.speed.(mod := ModOr0(mods, "speed")),
       defend := d.defend.(mod := ModOr0(mods, "defendMnv")),
       guardUp := d.guardUp.(mod := ModOr0(mods, "guardupMnv")),
       allOutAttack := d.allOutAttack.(mod := ModOr0(mods, "allOutAtkMnv")),
       health := d.health.(mod := ModOr0(mods, "maxHealth")),
       conviction := d.conviction.(mod := ModOr0(mods, "maxConviction")),
       powerPoints := d.powerPoints.(mod := ModOr0(mods, "maxPowerPoints")),
       aimMod := ModOr0(mods, "aimMnv"))
  }

  /** Lines 205-270: the field fan-out followed by the ability mods. */
  function Fanout(d: CharData, mods: ModBag, keys: set<string>): (r: CharData)
    ensures r.abilities.Keys == d.abilities.Keys
  {
    FieldsFanout(d, mods).(abilities := AbilitiesWithMods(d.abilities, mods, keys))
  }

  /** Re-running the item pass on its own output, with the same items, gives
      the same state: the pass is safe to re-enter. */
  lemma ItemPassIdempotent(d: CharData, mods: ModBag, keys: set<string>)
    requires "dex" in d.abilities && "cons" in d.abilities
    ensures PostMod(Fanout(PostMod(Fanout(d, mods, keys)), mods, keys)) == PostMod(Fanout(d, mods, keys))
  {
    FanoutFixesPostMod(d, mods, keys);
    PostModIdempotent(Fanout(d, mods, keys));
  }

  /** The fan-out writes only modifiers and the totals only totals, so
      fanning out the same bag again after the totals changes nothing. */
  lemma FanoutFixesPostMod(d: CharData, mods: ModBag, keys: set<string>)
    requires "dex" in d.abilities && "cons" in d.abilities
    ensures Fanout(PostMod(Fanout(d, mods, keys)), mods, keys) == PostMod(Fanout(d, mods, keys))
  {
    var once := Fanout(d, mods, keys);
    FanoutIsFannedOut(d, mods, keys);
    var post := PostMod(once);
    PostModKeepsFannedOut(once, mods);
    FieldsFanoutOfFannedOut(post, mods);
    AbilitiesWithModsTwice(d.abilities, mods, keys);
    assert post.abilities == once.abilities;
    assert Fanout(post, mods, keys) == post.(abilities := post.abilities);
  }

  lemma FanoutIsFannedOut(d: CharData, mods: ModBag, keys: set<string>)
    ensures FannedOut(Fanout(d, mods, keys), mods)
  {
  }

  /** The totals write no field the fan-out writes. */
  lemma PostModKeepsFannedOut(e: CharData, mods: ModBag)
    requires "dex" in e.abilities && "cons" in e.abilities
    requires FannedOut(e, mods)
    ensures FannedOut(PostMod(e), mods)
  {
  }

  /** Applying the ability modifiers twice is applying them once. */
  lemma AbilitiesWithModsTwice(abls: map<string, Ability>, mods: ModBag, keys: set<string>)
    ensures AbilitiesWithMods(AbilitiesWithMods(abls, mods, keys), mods, keys) == AbilitiesWithMods(abls, mods, keys)
  {
  }

  /** Every field the fan-out writes already holds what it would write. */
  predicate FannedOut(e: CharData, mods: ModBag) {
    && e.ownedMods == mods
    && e.armor.penalty == Max(ModOr0(mods, "armorPenalty"), 0)
    && e.armor.strain == Max(ModOr0(mods, "armorStrain"), 0)
    && e.armor.impact == ModOr0(mods, "impactArmor")
    && e.armor.ballistic == ModOr0(mods, "ballisticArmor")
    && e.armor.toughness.mod == ModOr0(mods, "toughness")
    && e.dmgMod == ModOr0(mods, "actorDamage")
    && e.testMod == ModOr0(mods, "testMod")
    && e.attackMod == ModOr0(mods, "attackMod")
    && e.defense.mod == ModOr0(mods, "defense")
    && e.speed.mod == ModOr0(mods, "speed")
    && e.defend.mod == ModOr0(mods, "defendMnv")
    && e.guardUp.mod == ModOr0(mods, "guardupMnv")
    && e.allOutAttack.mod == ModOr0(mods, "allOutAtkMnv")
    && e.health.mod == ModOr0(mods, "maxHealth")
    && e.conviction.mod == ModOr0(mods, "maxConviction")
    && e.powerPoints.mod == ModOr0(mods, "maxPowerPoints")
    && e.aimMod == ModOr0(mods, "aimMnv")
  }

  /** Fanning out onto a record that already holds the fan-out changes nothing. */
  lemma FieldsFanoutOfFannedOut(e: CharData, mods: ModBag)
    requires FannedOut(e, mods)
    ensures FieldsFanout(e, mods) == e
  {
  }

  /** The totals read no total, so computing them twice changes nothing. */
  lemma PostModIdempotent(d: CharData)
    requires "dex" in d.abilities && "cons" in d.abilities
    ensures PostMod(PostMod(d)) == PostMod(d)
  {
  }

  /** With a bag that summarises the owned items, the fan-out gives the armor
      and attack fields the sums over the contributing items of their keys. */
  lemma FanoutArmorSums(d: CharData, items: seq<Item>, mods: ModBag, keys: set<string>)
    requires Summarises(mods, items)
    ensures var r := Fanout(d, mods, keys);
      && r.armor.penalty == Max(KeySum(items, "armorPenalty"), 0)
      && r.armor.strain == Max(KeySum(items, "armorStrain"), 0)
      && r.armor.impact == KeySum(items, "impactArmor")
      && r.armor.ballistic == KeySum(items, "ballisticArmor")
      && r.armor.toughness.mod == KeySum(items, "toughness")
      && r.dmgMod == KeySum(items, "actorDamage")
      && r.testMod == KeySum(items, "testMod")
      && r.attackMod == KeySum(items, "attackMod")
  {
    SummarisedReads(mods, items, "armorPenalty");
    SummarisedReads(mods, items, "armorStrain");
    SummarisedReads(mods, items, "impactArmor");
    SummarisedReads(mods, items, "ballisticArmor");
    SummarisedReads(mods, items, "toughness");
    SummarisedReads(mods, items, "actorDamage");
    SummarisedReads(mods, items, "testMod");
    SummarisedReads(mods, items, "attackMod");
  }

  /** The same for defense, speed, the maneuvers, the pool caps and aim. */
  lemma FanoutDefenseSums(d: CharData, items: seq<Item>, mods: ModBag, keys: set<string>)
    requires Summarises(mods, items)
    ensures var r := Fanout(d, mods, keys);
      && r.defense.mod == KeySum(items, "defense")
      && r.speed.mod == KeySum(items, "speed")
      && r.defend.mod == KeySum(items, "defendMnv")
      && r.guardUp.mod == KeySum(items, "guardupMnv")
      && r.allOutAttack.mod == KeySum(items, "allOutAtkMnv")
      && r.health.mod == KeySum(items, "maxHealth")
      && r.conviction.mod == KeySum(items, "maxConviction")
      && r.powerPoints.mod == KeySum(items, "maxPowerPoints")
      && r.aimMod == KeySum(items, "aimMnv")
  {
    SummarisedReads(mods, items, "defense");
    SummarisedReads(mods, items, "speed");
    SummarisedReads(mods, items, "defendMnv");
    SummarisedReads(mods, items, "guardupMnv");
    SummarisedReads(mods, items, "allOutAtkMnv");
    SummarisedReads(mods, items, "maxHealth");
    SummarisedReads(mods, items, "maxConviction");
    SummarisedReads(mods, items, "maxPowerPoints");
    SummarisedReads(mods, items, "aimMnv");
  }

  /** A configured ability takes the sum over the contributing items of its
      own key. */
  lemma FanoutAbilitySum(d: CharData, items: seq<Item>, mods: ModBag, keys: set<string>, k: string)
    requires Summarises(mods, items) && k != FocusKey && k in keys && k in d.abilities
    ensures Fanout(d, mods, keys).abilities[k] == WithMod(d.abilities[k], KeySum(items, k))
  {
    SummarisedReads(mods, items, k);
  }

  class Character {
    var data: CharData
    var items: seq<Item>

    constructor (data: CharData, items: seq<Item>)
      ensures this.data == data && this.items == items
    {
      this.data := data;
      this.items := items;
    }

    /** Lines 37-58 and 109-169 for a character. */
    method PrepareBaseData(s: Settings)
      modifies this
      ensures items == old(items)
      ensures data == BaseData(old(data), s)
      ensures data.fatigue.status == FatigueStatusOf(ClampedFatigue(old(data).fatigue.entered, old(data).fatigue.max))
      ensures data.injury.degrees.severeMult == SevereMultFor(s.gameMode, old(data).injury.degrees.severeMult)
    {
      var value := ClampedFatigue(data.fatigue.entered, data.fatigue.max);
      var degrees := data.injury.degrees.(severeMult := SevereMultFor(s.gameMode, data.injury.degrees.severeMult));
      var diffMarks := ExpectedMarks(degrees) - data.injury.marks;
      var marksArray := BuildMarksArray(degrees.severeMult, degrees.severe, diffMarks);
      data := data.(
        useBallisticArmor := s.useBallisticArmor,
        wealth := WealthFor(data.wealth, s.wealthType),
        useConviction := s.useConviction,
        useToughness := s.useToughness,
        useFatigue := s.useFatigue,
        usePowerPoints := s.usePowerPoints,
        fatigue := data.fatigue.(value := value, status := FatigueStatusOf(value)),
        injury := data.injury.(
          degrees := degrees,
          totalDegrees := degrees.light + degrees.serious + degrees.severe,
          marksArray := marksArray));
    }

    /** Lines 181-274: aggregate the item modifiers, fan them out to the actor
      fields and the configured abilities, then compute the totals. */
    method ApplyItemModifiers(abilityKeys: set<string>)
      requires abilityKeys <= data.abilities.Keys
      requires "dex" in data.abilities && "cons" in data.abilities
      modifies this
      ensures items == old(items)
      ensures Summarises(data.ownedMods, items)
      ensures data == PostMod(Fanout(old(data), data.ownedMods, abilityKeys))
    {
      var mods := CollectMods(items);
      data := FieldsFanout(data, mods);
      ApplyAbilityMods(mods, abilityKeys);
      PreparePostModData();
    }

    /** The loop of lines 264-270 over the configured ability keys: each
        takes its aggregated modifier; nothing else changes. */
    method ApplyAbilityMods(mods: ModBag, abilityKeys: set<string>)
      requires abilityKeys <= data.abilities.Keys
      modifies this`data
      ensures data == old(data).(abilities := AbilitiesWithMods(old(data).abilities, mods, abilityKeys))
    {
      var abilities := data.abilities;
      var todo := abilityKeys;
      while todo != {}
        invariant todo <= abilityKeys
        invariant abilities.Keys == data.abilities.Keys
        invariant forall k :: k in abilities ==>
          abilities[k] == if k in abilityKeys && k !in todo then WithMod(data.abilities[k], ModOr0(mods, k)) else data.abilities[k]
        decreases todo
      {
        var ablKey :| ablKey in todo;
        abilities := abilities[ablKey := WithMod(abilities[ablKey], ModOr0(mods, ablKey))];
        todo := todo - {ablKey};
      }
      data := data.(abilities := abilities);
    }

    /** Lines 276-311: the derived totals. */
    method PreparePostModData()
      requires "dex" in data.abilities && "cons" in data.abilities
      modifies this
      ensures items == old(items)
      ensures data == PostMod(old(data))
    {
      data := PostMod(data);
    }

    /** The write of `applyInjury` (lines 641-644): the named degree and the
      marks take the values the summary reports; nothing else changes. */
    method ApplyInjury(useInjury: bool, degree: DegreeName) returns (r: Option<InjurySummary>)
      modifies this
      ensures r == Health.ApplyInjury(useInjury, Char, old(data).injury.degrees, old(data).injury.marks, degree)
      ensures r.None? ==> data == old(data)
      ensures r.Some? ==> data == old(data).(injury := old(data).injury.(
        degrees := r.value.totalInjuries, marks := r.value.newMarks))
      ensures items == old(items)
    {
      r := Health.ApplyInjury(useInjury, Char, data.injury.degrees, data.injury.marks, degree);
      if r.Some? {
        data := data.(injury := data.injury.(degrees := r.value.totalInjuries, marks := r.value.newMarks));
      }
    }

    /** The write of `applyHPchange` for a character (line 692): `health.value`
      takes the new hit points; nothing else changes. */
    method ApplyHPChange(newValue: int, isHealing: bool, isNewHP: bool) returns (r: HPSummary)
      modifies this
      ensures Some(r) == Health.ApplyHPChange(Char, old(data).health.value, old(data).health.setValue, 0, newValue, isHealing, isNewHP)
      ensures data == old(data).(health := old(data).health.(value := r.newHP))
      ensures items == old(items)
    {
      r := Health.ApplyHPChange(Char, data.health.value, data.health.setValue, 0, newValue, isHealing, isNewHP).value;
      data := data.(health := data.health.(value := r.newHP));
    }
  }
}
