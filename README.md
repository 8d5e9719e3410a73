# Actor recomputation engine of the AGE System tabletop-RPG sheets

This project models the actor engine of `modules/ageSystemActor.js`. Whenever an actor's stored data changes, the engine rebuilds every derived field from base values, global settings and the actor's owned items. There is one path per actor type: character, vehicle and spaceship. The model also covers the engine's small helpers: the focus lookup, the weapon re-keying, the injury and hit-point arithmetic and the condition toggle. The project then proves what each pass promises about the result.

## Layout

- **Actor classes.** Each actor type is a class with one field `data` holding its stored record and one field `items` holding its owned items: `CharacterActor.Character`, `VehicleActor.Vehicle` and `SpaceshipActor.Spaceship`. The source dispatches on `type` inside one class (lines 60-72 and 171-179). Each method here is one branch of that dispatch.
- **Passes and their specifications.** Each pass is a method. Its `ensures` ties the new record to a specification function of the old one: `BaseData`, `PostMod`, `Fanout`, `VehicleBase`, `ShipBase` or `ShipDerived`. The properties the source promises are lemmas about those functions.
- **Loops stay loops.** The source's loops are kept as loops with invariants:
  - the injury-marks fill;
  - the modifier fold;
  - the ability loop;
  - the passenger resolution and splice loops;
  - the loss-array fill;
  - the crew search;
  - the bonus sum;
  - the key padding;
  - the condition deletion.
  Each is proved against a reference definition.
- **Modules:**
  - `Common`: Option and integer helpers.
  - `Text`: ASCII lower-casing, string order and decimal digits.
  - `Items`: items and `checkFocus`.
  - `ItemModifiers`: the character modifier fold.
  - `CharacterRules`: wealth flags, fatigue and injury marks.
  - `Health`: the `applyInjury` and `applyHPchange` arithmetic.
  - `CharacterActor`.
  - `Passengers`: the passenger pass shared by vehicles and spaceships.
  - `VehicleActor`.
  - `SpaceshipRules`: bonuses, losses, systems, crew and hull.
  - `SpaceshipActor`.
  - `Weapons`: `sortWeapon`.
  - `Conditions`: `handleConditions`.
- **Inputs become parameters.** Global settings are a `Settings` value. The configured ability keys, hull table, crew table and status effects are parameters. The actor and token registry is a `Registry` value whose `ready` flag stands for `game.actors` existing.

Behaviours of the code the model keeps on purpose:

- **Fatigue status.** A fatigue value above 4 leaves the status empty (`Unset`). It does not collapse to dying (`CharacterRules.FatigueStatusOf`).
- **Two wealth flags.** The wealth pass clears `useResource` but sets `useResources`, so these are two fields (`CharacterRules.WealthFor`).
- **Passenger pruning.** Pruning is the index-shifting `splice` loop, not a filter:
  - the loop equals the filter when at most one passenger is unknown (`Passengers.SpliceFiltersAtMostOneInvalid`);
  - with two unknown passengers in a row it removes a known passenger and keeps an unknown one (`Passengers.AdjacentInvalidKeepsUnknown`).
- **Spaceship defense.** A spaceship's base pass adds the conductor's share to the stored `defenseTotal` without resetting it first; a vehicle's base pass resets it to 10 first.
- **Healing cap.** Healing a character is capped by `health.set`, not by `health.max`.

## Model

| member | source | states |
|---|---|---|
| Items.FirstFocusFrom | modules/ageSystemActor.js:587-590 | the index found holds a Focus whose lower-cased name matches, and no earlier item does; None means no item matches |
| Items.CheckFocus | modules/ageSystemActor.js:584-597 | an empty name gives the null answer; otherwise the answer is the first owned Focus whose lower-cased name matches the lower-cased request, or NotOwned when none does; a nonzero value implies a Focus was found |
| CharacterRules.WealthFor | modules/ageSystemActor.js:41-58 | `useResource` is always cleared; income, currency and coins are set exactly when the mode names them; `useResources` is set by the mode "resources" and otherwise keeps its prior value |
| CharacterRules.ClampedFatigue | modules/ageSystemActor.js:128-130 | the fatigue value is never negative and never above a non-negative max; it is the magnitude of the entered value when that fits, otherwise max (or 0) |
| CharacterRules.FatigueStatusOf | modules/ageSystemActor.js:127-150 | the status is empty exactly for values outside 0..4; 4 is dying and 0 no fatigue |
| CharacterRules.SevereMultFor | modules/ageSystemActor.js:153-157 | the multiplier is 2, 3, 2, 1 for none, gritty, pulp, cinematic; any other mode keeps the stored one |
| CharacterRules.BuildMarksArray | modules/ageSystemActor.js:161-166 | the filled vector has `severeMult` slots: all undefined without a severe wound, otherwise slot m is set exactly when the marks deficit is at most m |
| CharacterRules.MarksArraySuffix | modules/ageSystemActor.js:161-166 | with a severe wound every slot is defined and the set slots form a suffix |
| CharacterRules.MarksTrueCount | modules/ageSystemActor.js:159-166 | the number of set slots is `severeMult` minus the marks deficit cut into [0, severeMult] |
| CharacterRules.MarksUnsetWithoutSevere | modules/ageSystemActor.js:161-166 | with no severe wound no slot is set |
| ItemModifiers.CollectMods | modules/ageSystemActor.js:181-205 | the bag holds a numeric key exactly when some equipped or activated item has it selected and active, with the sum of those values, and the focus records of those items in item order |
| ItemModifiers.AddItemMods | modules/ageSystemActor.js:184-203 | folding one more item into a bag that summarises the earlier items gives a bag that summarises them all |
| ItemModifiers.SummarisedReads | modules/ageSystemActor.js:212-261 | read with `?? 0`, a summarising bag gives each numeric key the sum over the contributing items, 0 when none contributes |
| ItemModifiers.KeySumWithoutContributors | modules/ageSystemActor.js:186-202 | a key no item contributes to sums to 0 |
| ItemModifiers.KeySumAppend | modules/ageSystemActor.js:183-204 | the sum over two runs of items is the sum of their sums |
| ItemModifiers.FocusListAppend | modules/ageSystemActor.js:189-198 | focus records of two runs of items are those of the first run followed by those of the second |
| ItemModifiers.UngatedItemIgnored | modules/ageSystemActor.js:184 | an item without modifiers, or neither equipped nor activated, changes no sum and no focus record |
| ItemModifiers.UngatedItemIgnoredAnywhere | modules/ageSystemActor.js:183-184 | such an item changes no sum and no focus record wherever it stands in the item list |
| ItemModifiers.KeySumRunsCommute | modules/ageSystemActor.js:183-196 | the numeric sums do not depend on the order of two runs of items |
| Health.ApplyInjury | modules/ageSystemActor.js:628-652 | nothing unless injuries are in use and the actor is a character; otherwise only the named degree grows by one and the marks grow by `severeMult` for a severe wound, by 1 otherwise |
| Health.ApplyInjuryKeepsDeficit | modules/ageSystemActor.js:632-643 | an injury keeps the gap between the expected and the recorded marks, so with a severe wound already recorded the marks vector does not change |
| Health.ApplyHPChange | modules/ageSystemActor.js:655-693 | only characters and organizations answer; a new-HP call takes the value; damage gives max(prev - v, 0), never negative; healing a character gives min(prev + v, health.set); an organization heals uncapped |
| Health.HealThenDamageNoGain | modules/ageSystemActor.js:679-690 | healing a character and then damaging it by the same amount never raises its hit points |
| CharacterActor.BaseData | modules/ageSystemActor.js:109-169 | after the base pass the fatigue value is in [0, max], the marks vector has `severeMult` slots and the degree total is the sum of the three degrees |
| CharacterActor.BaseDataIdempotent | modules/ageSystemActor.js:109-169 | running the base pass on its own output changes nothing |
| CharacterActor.RawDefense | modules/ageSystemActor.js:281-287 | with no maneuver active the raw defense is Dexterity plus base, modifier and game-mode bonus; an active All-Out Attack never raises it above that sum plus the active bonuses; without All-Out Attack, non-negative bonuses never lower it |
| CharacterActor.DefenseTotal | modules/ageSystemActor.js:280-288 | defense is never negative: the sum of the maneuver bonuses, Dexterity, base, modifier and game-mode bonus less the All-Out Attack penalty, floored at 0 |
| CharacterActor.ResourcesTotal | modules/ageSystemActor.js:309-310 | in currency mode the resources modifier is 0; the total is base plus modifier |
| CharacterActor.PostMod | modules/ageSystemActor.js:276-311 | defense is never negative; speed is Dexterity less the magnitude of the armor penalty plus speed base and modifier; resources follow the currency rule; abilities and armor penalty are untouched |
| CharacterActor.WithMod | modules/ageSystemActor.js:267-268 | an ability's total is its value plus its modifier |
| CharacterActor.AbilitiesWithMods | modules/ageSystemActor.js:264-270 | the ability loop keeps the set of abilities |
| CharacterActor.FieldsFanout | modules/ageSystemActor.js:205-261 | armor penalty and strain are never negative; abilities are untouched |
| CharacterActor.Fanout | modules/ageSystemActor.js:205-270 | the fan-out keeps the set of abilities |
| CharacterActor.ItemPassIdempotent | modules/ageSystemActor.js:205-311 | re-running the item pass and the totals on their own output gives the same record |
| CharacterActor.FanoutFixesPostMod | modules/ageSystemActor.js:205-311 | fanning out the same bag again after the totals gives the same record |
| CharacterActor.PostModKeepsFannedOut | modules/ageSystemActor.js:276-311 | the totals leave every field the fan-out writes as it was |
| CharacterActor.PostModIdempotent | modules/ageSystemActor.js:276-311 | computing the totals twice is computing them once |
| CharacterActor.AbilitiesWithModsTwice | modules/ageSystemActor.js:264-270 | applying the ability modifiers twice is applying them once |
| CharacterActor.FanoutArmorSums | modules/ageSystemActor.js:211-234 | armor penalty and strain are the floored sums of their keys; impact, ballistic, toughness, damage, test and attack modifiers are the sums of theirs |
| CharacterActor.FanoutDefenseSums | modules/ageSystemActor.js:224-261 | defense, speed, maneuvers, health, conviction, power-point and aim modifiers are the sums over the contributing items of their keys |
| CharacterActor.FanoutAbilitySum | modules/ageSystemActor.js:264-270 | a configured ability's modifier is the sum of its key and its total is value plus that sum |
| CharacterActor.Character.PrepareBaseData | modules/ageSystemActor.js:109-169 | the record becomes `BaseData` of the old one, with the fatigue status and multiplier of the clamp and the game mode |
| CharacterActor.Character.ApplyItemModifiers | modules/ageSystemActor.js:181-274 | the stored bag summarises the owned items and the record becomes the totals of the fan-out of that bag |
| CharacterActor.Character.ApplyAbilityMods | modules/ageSystemActor.js:264-270 | each configured ability takes its key's modifier, and nothing else changes |
| CharacterActor.Character.PreparePostModData | modules/ageSystemActor.js:276-311 | the record becomes `PostMod` of the old one |
| CharacterActor.Character.ApplyInjury | modules/ageSystemActor.js:628-653 | the returned summary is the injury arithmetic; degrees and marks take its values and nothing else changes |
| CharacterActor.Character.ApplyHPChange | modules/ageSystemActor.js:655-694 | the returned summary is the hit-point arithmetic for a character; `health.value` takes the new value and nothing else changes |
| Passengers.HandlingFocusValue | modules/ageSystemActor.js:359-360 | the focus part of the conductor's share is nonzero only when the vehicle owns the handling Focus |
| Passengers.Lookup | modules/ageSystemActor.js:349 | token passengers are found among tokens, others among actors |
| Passengers.Resolve | modules/ageSystemActor.js:349-364 | a resolved passenger keeps id and token flag, takes name and picture from the registry when known, and is conductor exactly when its id is the conductor's and it is known |
| Passengers.ResolvePassengers | modules/ageSystemActor.js:343-366 | the loop resolves every passenger, collects the indices of unknown ones, adds the conductor shares, and without a registry defers once per passenger and changes nothing |
| Passengers.InvalidUpToExact | modules/ageSystemActor.js:343-351 | the collected indices are exactly the positions of unknown passengers, strictly ascending |
| Passengers.ResolveKeepsKnown | modules/ageSystemActor.js:349-355 | resolution does not change who the registry knows |
| Passengers.SpliceAt | modules/ageSystemActor.js:370 | `splice(i, 1)` removes the entry at i, or nothing past the end |
| Passengers.SpliceLoop | modules/ageSystemActor.js:368-371 | the loop splices at each collected index in turn on the list as left by earlier splices |
| Passengers.SpliceAllLength | modules/ageSystemActor.js:368-371 | each splice removes at most one passenger |
| Passengers.SoleInvalid | modules/ageSystemActor.js:350-351 | a single collected index names the one unknown passenger |
| Passengers.SpliceFiltersAtMostOneInvalid | modules/ageSystemActor.js:368-371 | with at most one unknown passenger the splice loop keeps exactly the known passengers |
| Passengers.AdjacentInvalidKeepsUnknown | modules/ageSystemActor.js:368-371 | two unknown passengers in a row: the loop keeps the second unknown one and removes the known one behind it, so it is not the filter |
| Passengers.NoConductorNoBonus | modules/ageSystemActor.js:356-364 | no registered conductor aboard adds nothing to the defense |
| Passengers.ConductorShare | modules/ageSystemActor.js:356-361 | a passenger who is not the conductor, or whom the registry does not know, adds nothing; anything added comes from the registered conductor |
| Passengers.SingleConductorBonus | modules/ageSystemActor.js:356-361 | exactly one registered conductor adds its handling ability total plus the focus value |
| Passengers.PassengerPass | modules/ageSystemActor.js:343-371 | the pass returns the spliced resolved list, the conductor bonus and the deferral count |
| Passengers.PassPrunesAtMostOneInvalid | modules/ageSystemActor.js:343-371 | with at most one unknown passenger the pass keeps exactly the known resolved passengers; without a registry it keeps the list |
| VehicleActor.VehicleBase | modules/ageSystemActor.js:338-376 | the base pass keeps the conductor and handling, copies the armor setting, and never lengthens the passenger list, whose length is people on board |
| VehicleActor.VehicleBaseFacts | modules/ageSystemActor.js:338-376 | people on board is the new list's length; the list is the known passengers when at most one is unknown; the defense is 10 with no conductor or no registry and 10 plus ability and focus with one conductor |
| VehicleActor.Vehicle.PrepareBaseData | modules/ageSystemActor.js:338-376 | the record becomes `VehicleBase` of the old one; the deferral count is the passenger count without a registry |
| SpaceshipRules.NoBonusSumsToZero | modules/ageSystemActor.js:326-332 | a type no counting item names sums to 0 |
| SpaceshipRules.SpaceshipBonuses | modules/ageSystemActor.js:316-336 | one key per type named by an item that is not special, rollable or weapon, holding the sum of those items' values |
| SpaceshipRules.LossArrayShape | modules/ageSystemActor.js:394-397 | a loss vector is min(actual, max) ticked boxes followed by unticked ones |
| SpaceshipRules.BuildLossArray | modules/ageSystemActor.js:394-397 | the filled array has `max` boxes, box b ticked exactly when actual - 1 >= b |
| SpaceshipRules.FillSeverity | modules/ageSystemActor.js:392-399 | every track of one severity gets its loss vector |
| SpaceshipRules.FillLosses | modules/ageSystemActor.js:389-402 | every track of every severity gets its loss vector |
| SpaceshipRules.FilledLossesKeepTracks | modules/ageSystemActor.js:389-402 | filling keeps capacity and losses and draws a vector of `max` boxes with box b ticked iff b < actual |
| SpaceshipRules.SystemTotals | modules/ageSystemActor.js:404-415 | sensors and maneuver totals are base plus modifier less the boxes lost on their normal tracks; command and damage control are base plus modifier |
| SpaceshipRules.AddSensorBonus | modules/ageSystemActor.js:459-463 | a missing or zero bonus leaves base plus modifier less the lost boxes; a positive bonus raises that total and a negative one lowers it |
| SpaceshipRules.SensorBonusOverBaseTotal | modules/ageSystemActor.js:459-463 | the derived sensor total is the base pass's total plus the item bonus, unchanged without one |
| SpaceshipRules.FirstShortfall | modules/ageSystemActor.js:433-440 | the index found is the first crew row whose minimum exceeds the current crew; None means none does |
| SpaceshipRules.CrewPenaltyOf | modules/ageSystemActor.js:428-444 | enough crew gives 0; too few gives no number exactly when no row's minimum exceeds the current crew |
| SpaceshipRules.CrewPenalty | modules/ageSystemActor.js:428-444 | the search loop computes `CrewPenaltyOf` |
| SpaceshipRules.CrewPenaltyRange | modules/ageSystemActor.js:428-444 | with the ship's own minimum and too few crew the penalty is an even number in [-2 * size, -2] |
| SpaceshipRules.LooselyOne | modules/ageSystemActor.js:480 | a hull loosely equal to 1 (the number 1 or the text "1") renders as "1" |
| SpaceshipRules.Render | modules/ageSystemActor.js:481-483 | a number renders non-empty, with '-' exactly when negative and as digits when non-negative; a composite renders at least 2 characters |
| SpaceshipRules.CompositeRoundTrip | modules/ageSystemActor.js:481-484 | a composite hull shows its base then a sign and digits that read back as the adjustment |
| SpaceshipRules.AddSizeMod | modules/ageSystemActor.js:465-472 | no modifier keeps the base hull; otherwise the shifted size is clamped into [1, table length], so the lookup is in the table |
| SpaceshipRules.AddHullPlatingLoss | modules/ageSystemActor.js:474-485 | a zero net adjustment keeps the hull; a hull loosely equal to 1 becomes the number 1 + net; any other becomes the hull with the signed net appended |
| SpaceshipRules.PlatingShownAfterBase | modules/ageSystemActor.js:480-484 | the plated hull's text starts with the hull's text and the rest reads back as the net adjustment |
| SpaceshipActor.BonusOf | modules/ageSystemActor.js:450-453 | an item bonus is present exactly when its key is in the bonus object |
| SpaceshipActor.ShipBase | modules/ageSystemActor.js:382-426 | the base pass keeps conductor, handling, item modifiers, size and current crew, records the size as `sizeNumeric`, copies the armor setting, keeps the severities, and never lengthens the passenger list, whose length is people on board |
| SpaceshipActor.ShipBaseFacts | modules/ageSystemActor.js:382-426 | people on board is the list's length; the defense only grows by the conductor share; crew minimum and base hull are the size's; the crew penalty is 0 or even in [-2 * size, -2]; sensors lose their lost boxes |
| SpaceshipActor.ShipDerived | modules/ageSystemActor.js:446-457 | the derived pass writes only the hull's shifted and plated values and the sensor total; the base hull and every other field stay; without a sensor bonus the sensor total is base plus modifier less the lost boxes |
| SpaceshipActor.ShipDerivedFacts | modules/ageSystemActor.js:446-457 | the derived sensor total is the base total plus the bonus; with no size modifier and plating equal to the hull loss the hull total is the size's hull |
| SpaceshipActor.Spaceship.PrepareBaseData | modules/ageSystemActor.js:382-426 | the record becomes `ShipBase` of the old one; the deferral count is the passenger count without a registry |
| SpaceshipActor.Spaceship.ApplyItemModifiers | modules/ageSystemActor.js:316-336 | only the bonus object changes, holding one per-type sum for each type a counting item names |
| SpaceshipActor.Spaceship.PrepareDerivedData | modules/ageSystemActor.js:446-457 | the record becomes `ShipDerived` of the old one |
| Weapons.InsertByName | modules/ageSystemActor.js:495-505 | inserting keeps every weapon and adds the new one |
| Weapons.SortByName | modules/ageSystemActor.js:495-505 | the sort is a permutation of the weapons |
| Weapons.InsertKeepsSorted | modules/ageSystemActor.js:495-505 | inserting into a list sorted by lower-cased name keeps it sorted |
| Weapons.SortByNameSorted | modules/ageSystemActor.js:495-505 | the sort orders by lower-cased name and keeps every weapon exactly once |
| Weapons.SortedAscending | modules/ageSystemActor.js:495-505 | in the sorted list an earlier name is equal to a later one or sorts before it |
| Weapons.PaddedKeyParses | modules/ageSystemActor.js:509-512 | a key has at least four characters, all digits, and reads back as its position |
| Weapons.PaddedKeyInjective | modules/ageSystemActor.js:509-513 | distinct positions get distinct keys |
| Weapons.PadLeftZeros | modules/ageSystemActor.js:510-512 | padding a string to n characters prepends exactly n - length zeros to a shorter string and nothing to any other |
| Weapons.PadKey | modules/ageSystemActor.js:509-512 | the padding loop yields the position's digits left-padded with zeros to four characters |
| Weapons.RekeyedAt | modules/ageSystemActor.js:506-514 | sorted position w is stored under its key |
| Weapons.RekeyedKeys | modules/ageSystemActor.js:506-514 | the new object has exactly the keys of its positions |
| Weapons.LaterKeyIsNew | modules/ageSystemActor.js:507-513 | a later position's key is none of the earlier keys, so no entry is overwritten |
| Weapons.KeysUpToSize | modules/ageSystemActor.js:506-514 | there are as many keys as weapons |
| Weapons.SortWeapon | modules/ageSystemActor.js:487-516 | nothing stored gives an empty object; otherwise the weapons sorted by name are stored under "0000", "0001", ... in order |
| Conditions.FirstDefFrom | modules/ageSystemActor.js:702 | the index found holds a status with the id and no earlier index at or after the start does; None means none does |
| Conditions.FirstDef | modules/ageSystemActor.js:702 | the definition found is the first configured status with the id; None means no status carries it |
| Conditions.Toggle | modules/ageSystemActor.js:696-718 | vehicles and spaceships answer null; otherwise the condition is removed exactly when some effect carries it, and creation fails exactly when none does and no definition exists; null and failure leave the effects alone; creation adds the fresh id and touches nothing else |
| Conditions.HandleConditions | modules/ageSystemActor.js:696-718 | vehicles and spaceships answer null and change nothing; a condition that is on has every carrying effect deleted; one that is off gets one effect created from its definition |
| Conditions.ToggleFlipsCondition | modules/ageSystemActor.js:698-716 | after switching off no effect carries the condition; after switching on exactly the created one does |
| Conditions.ToggleKeepsOtherEffects | modules/ageSystemActor.js:698-716 | effects not carrying the condition are untouched and no effect appears but the created one |
| Conditions.ToggleTwiceRestores | modules/ageSystemActor.js:696-718 | switching a condition on and then off again restores the effect collection |

## Left out

- Framework hooks: `prepareData`, `prepareEmbeddedEntities`, active effects and the preparation of items (lines 8-29, 77-88) call code in other files. The initiative focus bonus of lines 22-27 belongs to these hooks and is not modelled.
- Icon defaulting (line 35), localisation and `game.settings.get`: settings are the `Settings` parameter; status labels are the `FatigueStatus` enumeration, with `Unset` for the empty label.
- Persistence and asynchrony: `this.update`, `createEmbeddedDocuments`, `effect.delete()` and await ordering. The model applies the resulting state change sequentially.
- Rolls: `toughnessTest`, `rollVehicleDamage` and the dice module are external evaluators. `openSheet` and `_vehicleOperator` are user-interface code.
- The deferred-preparation queue `game.postReadyPrepare`: only the number of pushes is returned, as `deferred`.
- `Number(...)` coercion and NaN in general: every stored numeric field is an integer. The one NaN the engine can produce on integer input, a crew penalty with no short row, is `None`. A missing ship bonus value in `item[type]` is not modelled.
- `toLowerCase` is ASCII-only lower-casing. JavaScript string comparison is modelled as lexicographic order on characters.
- `config.js` is not part of this model. The configured abilities, hull table, crew table and status effects are parameters.
- CharacterActor.PostMod: requires the character to have the `dex` and `cons` abilities. The source fails on reading `abilities.dex.total` or `abilities.cons.total` without them (lines 284, 291 and 294); the model does not model that failure. The same requirement is on `CharacterActor.ItemPassIdempotent`, `CharacterActor.FanoutFixesPostMod`, `CharacterActor.PostModKeepsFannedOut`, `CharacterActor.PostModIdempotent` and the `Character` methods that compute the totals.
- CharacterActor.Character.ApplyItemModifiers: requires every configured ability key to be among the character's abilities, and `dex` and `cons` to be present. The source fails writing `abilities[ablKey].mod` for a configured ability the character lacks (lines 266-267); the model does not model that failure. `CharacterActor.Character.ApplyAbilityMods` carries the same requirement.
- Passengers.ConductorHasAbility: a conductor whose registry entry lacks the handling ability makes the source fail. The model requires the ability to be present instead of modelling the failure.
- SpaceshipActor.ShipBase: requires the `normal` severity with its sensors and maneuverability tracks, whose reads fail without them (lines 405-411). It also requires a size inside both tables. Outside the crew table the source fails when it reads the row's minimum (line 420). Outside the hull table it stores an undefined base hull (line 418), which the model does not represent.
- SpaceshipActor.Spaceship.PrepareDerivedData: requires the `normal` severity with its sensors and hull tracks, whose reads fail without them (lines 460 and 475). It also requires a non-empty hull table. With an empty table and a nonzero size modifier, the source clamps the size to 0 and returns an undefined hull (lines 465-471), which the model does not represent. Without a modifier the table is not read.
- SpaceshipRules.Loss: a track's `max` is a natural number. `new Array(max)` rejects negatives.
- SpaceshipRules.LooselyOne: the loose comparison `hull == 1` is modelled for the number 1 and the text "1" only. Other texts that coerce to 1, such as " 1", are treated as not equal.
- Weapons.SortWeapon: the enumeration order of the stored object is taken as the input sequence. Sort stability is built into `SortByName` (equal names keep their order) but is not stated as a separate lemma.
- Conditions.HandleConditions: the effect collection is a map keyed by effect id, so the order of deletions is immaterial. The id the database gives a created effect is the `freshId` parameter. The created effect keeps only the condition flag and status id of its definition. A missing definition, where the source fails, is the `Failed` outcome.
- Health.ApplyInjury: the actor-type test reads `this.actor.type` (line 630). On an actor, `this.actor` is not the actor itself, so the test as written does not look at the actor's type. The model follows the evident intent and tests the actor's own type, as `applyHPchange` does.
- Character class: the character's `applyHPchange` write is modelled. The organization branch is modelled only as the value `Health.ApplyHPChange` computes, since organizations have no class here.
