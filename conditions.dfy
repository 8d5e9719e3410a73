/** The condition toggle of `handleConditions` (lines 696-718): a condition
    that is on is switched off by deleting every effect that carries it; a
    condition that is off is switched on by creating one effect from the
    configured status definition. Vehicles and spaceships have no
    conditions. The effect collection is keyed by effect id. */
module Conditions {
  import opened Common

  /** An active effect: whether it is flagged as a condition and the status
      id it stands for, when it has one. */
  datatype Effect = Effect(isCondition: bool, statusId: Option<string>)

  /** An entry of the configured status effects. */
  datatype StatusDef = StatusDef(id: string, isCondition: bool)

  /** `NotApplicable` is the `null` answer for vehicles and spaceships;
      `Failed` is the error the source runs into when no status definition
      carries the id. */
  datatype Outcome = NotApplicable | Created | Removed | Failed

  /** The effect is the condition `condId`, switched on. */
  predicate IsOn(e: Effect, condId: string) {
    e.isCondition && e.statusId == Some(condId)
  }

  /** The ids of the effects the source collects in `effectsOn`. */
  function OnIds(effects: map<string, Effect>, condId: string): set<string> {
    set id | id in effects && IsOn(effects[id], condId)
  }

  /** The first index at or after `from` of a configured status with the id. */
  function FirstDefFrom(defs: seq<StatusDef>, condId: string, from: nat): (r: Option<nat>)
    requires from <= |defs|
    ensures r.Some? ==> from <= r.value < |defs| && defs[r.value].id == condId
    ensures r.Some? ==> forall j :: from <= j < r.value ==> defs[j].id != condId
    ensures r.None? ==> forall j :: from <= j < |defs| ==> defs[j].id != condId
    decreases |defs| - from
  {
    if from == |defs| then None
    else if defs[from].id == condId then Some(from)
    else FirstDefFrom(defs, condId, from + 1)
  }

  /** The first configured status with the id (`filter(...)[0]`). */
  function FirstDef(defs: seq<StatusDef>, condId: string): (r: Option<StatusDef>)
    ensures r.Some? ==> r.value in defs && r.value.id == condId
    ensures r.Some? ==> exists k :: (0 <= k < |defs| && defs[k] == r.value &&
                                      forall j :: 0 <= j < k ==> defs[j].id != condId)
    ensures r.None? ==> forall k :: 0 <= k < |defs| ==> defs[k].id != condId
  {
    match FirstDefFrom(defs, condId, 0)
    case None => None
    case Some(k) => Some(defs[k])
  }

  /** The effect created from a status definition: its flags, with the
      status id set to the definition's id. */
  function FromDef(d: StatusDef): Effect {
    Effect(d.isCondition, Some(d.id))
  }

  /** The collection without the effects that carry the condition. */
  function WithoutCondition(effects: map<string, Effect>, condId: string): map<string, Effect> {
    map id | id in effects && !IsOn(effects[id], condId) :: effects[id]
  }

  /** The answer and the collection afterwards; `freshId` is the id the
      database gives a created effect. */
  function Toggle(kind: ActorKind, effects: map<string, Effect>, defs: seq<StatusDef>, condId: string, freshId: string): (r: (Outcome, map<string, Effect>))
    ensures r.0 == NotApplicable <==> kind == Vehicle || kind == Spaceship
    ensures r.0 == Removed <==> r.0 != NotApplicable && OnIds(effects, condId) != {}
    ensures r.0 == Failed <==> r.0 != NotApplicable && OnIds(effects, condId) == {} && FirstDef(defs, condId).None?
    ensures r.0 == NotApplicable || r.0 == Failed ==> r.1 == effects
    ensures r.0 == Created ==> freshId in r.1 && r.1 - {freshId} == effects - {freshId}
  {
    if kind == Vehicle || kind == Spaceship then (NotApplicable, effects)
    else if OnIds(effects, condId) == {} then
      match FirstDef(defs, condId)
      case None => (Failed, effects)
      case Some(d) => (Created, effects[freshId := FromDef(d)])
    else (Removed, WithoutCondition(effects, condId))
  }

  /** `handleConditions(condId)`: the deletion loop removes the collected
      effects one id at a time. */
  method HandleConditions(kind: ActorKind, effects: map<string, Effect>, defs: seq<StatusDef>, condId: string, freshId: string)
      returns (outcome: Outcome, after: map<string, Effect>)
    requires freshId !in effects
    ensures (outcome, after) == Toggle(kind, effects, defs, condId, freshId)
  {
    if kind == Vehicle || kind == Spaceship {
      return NotApplicable, effects;
    }
    var effectsOn := OnIds(effects, condId);
    if effectsOn == {} {
      var def := FirstDef(defs, condId);
      if def.None? {
        return Failed, effects;
      }
      return Created, effects[freshId := FromDef(def.value)];
    }
    after := effects;
    var todo := effectsOn;
    while todo != {}
      invariant todo <= effectsOn
      invariant after == map id | id in effects && (id !in effectsOn || id in todo) :: effects[id]
      decreases todo
    {
      var id :| id in todo;
      after := after - {id};
      todo := todo - {id};
    }
    assert forall id :: id in effects ==> (id in effectsOn <==> IsOn(effects[id], condId));
    assert after == WithoutCondition(effects, condId);
    outcome := Removed;
  }

  /** After the toggle, an applicable actor that had the condition on has no
      effect carrying it; one that had it off has exactly the created
      effect carrying it when the definition is flagged as a condition, and
      none otherwise. */
  lemma ToggleFlipsCondition(kind: ActorKind, effects: map<string, Effect>, defs: seq<StatusDef>, condId: string, freshId: string)
    requires freshId !in effects
    requires kind != Vehicle && kind != Spaceship
    ensures OnIds(effects, condId) != {} ==> OnIds(Toggle(kind, effects, defs, condId, freshId).1, condId) == {}
    ensures OnIds(effects, condId) == {} && FirstDef(defs, condId).Some? ==>
      OnIds(Toggle(kind, effects, defs, condId, freshId).1, condId) ==
        if FirstDef(defs, condId).value.isCondition then {freshId} else {}
  {
    var after := Toggle(kind, effects, defs, condId, freshId).1;
    if OnIds(effects, condId) == {} && FirstDef(defs, condId).Some? {
      forall id | id in after && id != freshId
        ensures !IsOn(after[id], condId)
      {
        assert id in effects && id !in OnIds(effects, condId);
      }
    }
  }

  /** Effects that do not carry the condition are never touched, and no
      effect appears but the created one. */
  lemma ToggleKeepsOtherEffects(kind: ActorKind, effects: map<string, Effect>, defs: seq<StatusDef>, condId: string, freshId: string)
    requires freshId !in effects
    ensures forall id :: id in effects && !IsOn(effects[id], condId) ==>
      id in Toggle(kind, effects, defs, condId, freshId).1 && Toggle(kind, effects, defs, condId, freshId).1[id] == effects[id]
    ensures forall id :: id in Toggle(kind, effects, defs, condId, freshId).1 && id != freshId ==> id in effects
  {
  }

  /** Switching a condition on and then off again restores the collection. */
  lemma ToggleTwiceRestores(kind: ActorKind, effects: map<string, Effect>, defs: seq<StatusDef>, condId: string, freshId: string, laterId: string)
    requires freshId !in effects
    requires kind != Vehicle && kind != Spaceship
    requires OnIds(effects, condId) == {} && FirstDef(defs, condId).Some? && FirstDef(defs, condId).value.isCondition
    requires laterId !in Toggle(kind, effects, defs, condId, freshId).1
    ensures Toggle(kind, Toggle(kind, effects, defs, condId, freshId).1, defs, condId, laterId).0 == Removed
    ensures Toggle(kind, Toggle(kind, effects, defs, condId, freshId).1, defs, condId, laterId).1 == effects
  {
    var once := Toggle(kind, effects, defs, condId, freshId).1;
    ToggleFlipsCondition(kind, effects, defs, condId, freshId);
    assert freshId in OnIds(once, condId);
    var twice := Toggle(kind, once, defs, condId, laterId).1;
    assert twice == WithoutCondition(once, condId);
    forall id | id in effects
      ensures id in twice && twice[id] == effects[id]
    {
      assert id !in OnIds(effects, condId);
    }
  }
}
