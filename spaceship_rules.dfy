/** The spaceship rules: the per-type sum of item bonuses
    (`_spaceshipItemModifiers`), the loss progress vectors and system totals
    of `_prepareBaseDataSpaceship`, the crew-shortage penalty
    (`_addCrewPenalty`) and the hull and sensor helpers of the derived pass
    (`_addSizeMod`, `_addHullPlatingLoss`, `_addSensorBonus`). */
module SpaceshipRules {
  import opened Common
  import opened Text
  import opened Items

  // ---------------------------------------------------------------- bonuses

  /** Special features, rollable items and weapons carry no ship bonus. */
  predicate CountsForShip(i: Item) {
    i.kind != "special" && i.kind != "rollable" && i.kind != "weapon"
  }

  predicate BonusOfType(i: Item, t: string) {
    CountsForShip(i) && i.modType == t
  }

  /** Reference sum: the values the first `n` counting items carry under type `t`. */
  function BonusSumUpTo(items: seq<Item>, t: string, n: nat): int
    requires n <= |items|
  {
    if n == 0 then 0
    else BonusSumUpTo(items, t, n - 1) + (if BonusOfType(items[n - 1], t) then items[n - 1].modValue else 0)
  }

  predicate HasBonusUpTo(items: seq<Item>, t: string, n: nat)
    requires n <= |items|
  {
    exists j :: 0 <= j < n && BonusOfType(items[j], t)
  }

  /** A type no counting item names sums to 0. */
  lemma {:induction false} NoBonusSumsToZero(items: seq<Item>, t: string, n: nat)
    requires n <= |items| && !HasBonusUpTo(items, t, n)
    ensures BonusSumUpTo(items, t, n) == 0
  {
    if n > 0 {
      NoBonusSumsToZero(items, t, n - 1);
    }
  }

  /** Lines 316-336: one key per type some counting item names, holding the
      sum of what those items carry under it. */
  method SpaceshipBonuses(items: seq<Item>) returns (bonuses: map<string, int>)
    ensures forall t :: t in bonuses <==> HasBonusUpTo(items, t, |items|)
    ensures forall t :: t in bonuses ==> bonuses[t] == BonusSumUpTo(items, t, |items|)
  {
    bonuses := map[];
    for i := 0 to |items|
      invariant forall t :: t in bonuses <==> HasBonusUpTo(items, t, i)
      invariant forall t :: t in bonuses ==> bonuses[t] == BonusSumUpTo(items, t, i)
    {
      var it := items[i];
      if CountsForShip(it) {
        var t := it.modType;
        var prior := 0;
        if t in bonuses {
          prior := bonuses[t];
        } else {
          NoBonusSumsToZero(items, t, i);
        }
        bonuses := bonuses[t := prior + it.modValue];
      }
    }
  }

  // ------------------------------------------------------------ loss arrays

  /** One loss track: its capacity, the boxes already lost and the progress
      vector the sheet draws. */
  datatype Loss = Loss(max: nat, actual: int, maxArray: seq<bool>)

  /** Box `b` of a track of `max` boxes is ticked when `actual - 1 >= b`. */
  function LossArray(max: nat, actual: int): (r: seq<bool>)
    ensures |r| == max
  {
    seq(max, b requires 0 <= b < max => actual - 1 >= b)
  }

  /** The boxes ticked: `actual` cut into `[0, max]`. */
  function TickedBoxes(max: nat, actual: int): (k: nat)
    ensures k <= max
  {
    if actual < 0 then 0 else if actual > max then max else actual
  }

  /** The first `min(actual, max)` boxes are ticked and the rest are not. */
  lemma LossArrayShape(max: nat, actual: int)
    ensures LossArray(max, actual) ==
      seq(TickedBoxes(max, actual), _ => true) + seq(max - TickedBoxes(max, actual), _ => false)
  {
    var k := TickedBoxes(max, actual);
    var expected := seq(k, _ => true) + seq(max - k, _ => false);
    assert |expected| == max;
    forall b | 0 <= b < max
      ensures LossArray(max, actual)[b] == expected[b]
    {
      if b < k {
        assert expected[b] == true;
      } else {
        assert expected[b] == false;
      }
    }
  }

  /** `new Array(max)` filled box by box (lines 394-397). */
  method BuildLossArray(max: nat, actual: int) returns (r: seq<bool>)
    ensures r == LossArray(max, actual)
  {
    var a := new bool[max];
    for b := 0 to max
      invariant forall j :: 0 <= j < b ==> a[j] == (actual - 1 >= j)
    {
      a[b] := actual - 1 >= b;
    }
    r := a[..];
  }

  function FilledLoss(l: Loss): Loss {
    l.(maxArray := LossArray(l.max, l.actual))
  }

  function FilledSeverity(severity: map<string, Loss>): map<string, Loss> {
    map t | t in severity :: FilledLoss(severity[t])
  }

  function FilledLosses(losses: map<string, map<string, Loss>>): map<string, map<string, Loss>> {
    map l | l in losses :: FilledSeverity(losses[l])
  }

  /** The inner loop over the tracks of one severity. */
  method FillSeverity(severity: map<string, Loss>) returns (r: map<string, Loss>)
    ensures r == FilledSeverity(severity)
  {
    r := severity;
    var todo := severity.Keys;
    while todo != {}
      invariant todo <= severity.Keys && r.Keys == severity.Keys
      invariant forall t :: t in r ==> r[t] == if t in todo then severity[t] else FilledLoss(severity[t])
      decreases todo
    {
      var t :| t in todo;
      var arr := BuildLossArray(r[t].max, r[t].actual);
      r := r[t := r[t].(maxArray := arr)];
      todo := todo - {t};
    }
  }

  /** The outer loop over severities (lines 389-402). */
  method FillLosses(losses: map<string, map<string, Loss>>) returns (r: map<string, map<string, Loss>>)
    ensures r == FilledLosses(losses)
  {
    r := losses;
    var todo := losses.Keys;
    while todo != {}
      invariant todo <= losses.Keys && r.Keys == losses.Keys
      invariant forall l :: l in r ==> r[l] == if l in todo then losses[l] else FilledSeverity(losses[l])
      decreases todo
    {
      var l :| l in todo;
      var filled := FillSeverity(r[l]);
      r := r[l := filled];
      todo := todo - {l};
    }
  }

  /** Filling keeps every track's capacity and losses and draws its vector. */
  lemma FilledLossesKeepTracks(losses: map<string, map<string, Loss>>, l: string, t: string)
    requires l in losses && t in losses[l]
    ensures l in FilledLosses(losses) && t in FilledLosses(losses)[l]
    ensures FilledLosses(losses)[l][t].max == losses[l][t].max
    ensures FilledLosses(losses)[l][t].actual == losses[l][t].actual
    ensures |FilledLosses(losses)[l][t].maxArray| == losses[l][t].max
    ensures forall b :: 0 <= b < losses[l][t].max ==>
      (FilledLosses(losses)[l][t].maxArray[b] <==> b < losses[l][t].actual)
  {
  }

  // ---------------------------------------------------------------- systems

  datatype System = System(base: int, mod: int, loss: int, total: int)
  datatype Systems = Systems(sensors: System, maneuver: System, command: System, damageControl: System)

  /** Lines 404-416: sensors and maneuver lose the boxes lost on their
      normal-severity tracks; command and damage control have no loss. */
  function SystemTotals(sys: Systems, sensorsLost: int, maneuverLost: int): (r: Systems)
    ensures r.sensors.total + sensorsLost == r.sensors.base + r.sensors.mod
    ensures r.maneuver.total + maneuverLost == r.maneuver.base + r.maneuver.mod
    ensures r.command.total == r.command.base + r.command.mod
    ensures r.damageControl.total == r.damageControl.base + r.damageControl.mod
    ensures r.sensors.base == sys.sensors.base && r.sensors.mod == sys.sensors.mod
    ensures r.maneuver.base == sys.maneuver.base && r.maneuver.mod == sys.maneuver.mod
    ensures r.command.base == sys.command.base && r.command.mod == sys.command.mod
    ensures r.damageControl == sys.damageControl.(total := r.damageControl.total)
  {
    var sensorsLoss := -sensorsLost;
    var maneuverLoss := -maneuverLost;
    sys.(
      sensors := sys.sensors.(loss := sensorsLoss, total := sys.sensors.base + sys.sensors.mod + sensorsLoss),
      maneuver := sys.maneuver.(loss := maneuverLoss, total := sys.maneuver.base + sys.maneuver.mod + maneuverLoss),
      command := sys.command.(total := sys.command.base + sys.command.mod),
      damageControl := sys.damageControl.(total := sys.damageControl.base + sys.damageControl.mod))
  }

  /** `_addSensorBonus` (lines 459-463): a missing or zero bonus counts as 0. */
  function AddSensorBonus(base: int, mod: int, bonus: Option<int>, sensorsLost: int): (r: int)
    ensures OrZero(bonus) == 0 ==> r == base + mod - sensorsLost
    ensures bonus.Some? && bonus.value > 0 ==> r > base + mod - sensorsLost
    ensures bonus.Some? && bonus.value < 0 ==> r < base + mod - sensorsLost
  {
    base + mod + OrZero(bonus) + -sensorsLost
  }

  /** The derived pass's sensor total is the base pass's total raised by the
      item bonus. */
  lemma SensorBonusOverBaseTotal(sys: Systems, sensorsLost: int, maneuverLost: int, bonus: Option<int>)
    ensures AddSensorBonus(sys.sensors.base, sys.sensors.mod, bonus, sensorsLost) ==
      SystemTotals(sys, sensorsLost, maneuverLost).sensors.total + OrZero(bonus)
    ensures bonus.None? ==>
      AddSensorBonus(sys.sensors.base, sys.sensors.mod, bonus, sensorsLost) == SystemTotals(sys, sensorsLost, maneuverLost).sensors.total
  {
  }

  // ------------------------------------------------------------------- crew

  /** One row of the crew table: the minimum and typical crew of a size. */
  datatype CrewRow = CrewRow(min: int, typical: int)

  /** The first row at or after `from` whose minimum exceeds `current`. */
  function FirstShortfall(table: seq<CrewRow>, current: int, from: nat): (r: Option<nat>)
    requires from <= |table|
    ensures r.Some? ==> from <= r.value < |table| && current < table[r.value].min
    ensures r.Some? ==> forall j :: from <= j < r.value ==> current >= table[j].min
    ensures r.None? ==> forall j :: from <= j < |table| ==> current >= table[j].min
    decreases |table| - from
  {
    if from == |table| then None
    else if current - table[from].min < 0 then Some(from)
    else FirstShortfall(table, current, from + 1)
  }

  /** `_addCrewPenalty`: 0 with enough crew; otherwise twice the number of
      sizes from the first row that is short up to the ship's own, negated.
      `None` stands for the NaN the source computes when no row is short. */
  function CrewPenaltyOf(size: int, current: int, min: int, table: seq<CrewRow>): (r: Option<int>)
    ensures current >= min ==> r == Some(0)
    ensures current < min ==> (r.None? <==> forall j :: 0 <= j < |table| ==> current >= table[j].min)
  {
    if current >= min then Some(0)
    else match FirstShortfall(table, current, 0)
      case None => None
      case Some(steps) => Some(-(2 * (size - 1 - steps + 1)))
  }

  /** The search loop of lines 428-444. */
  method CrewPenalty(size: int, current: int, min: int, table: seq<CrewRow>) returns (r: Option<int>)
    ensures r == CrewPenaltyOf(size, current, min, table)
  {
    if current >= min {
      return Some(0);
    }
    var steps: Option<nat> := None;
    var s := 0;
    while s < |table|
      invariant 0 <= s <= |table|
      invariant FirstShortfall(table, current, 0) == FirstShortfall(table, current, s)
    {
      var diff := current - table[s].min;
      if diff < 0 {
        steps := Some(s);
        break;
      }
      s := s + 1;
    }
    if steps.None? {
      return None;
    }
    var diff := size - 1 - steps.value + 1;
    r := Some(-(2 * diff));
  }

  /** With the ship's own minimum as the threshold and too few crew, the
      penalty is an even number between -2 * size and -2. */
  lemma CrewPenaltyRange(size: int, current: int, table: seq<CrewRow>)
    requires 1 <= size <= |table| && current < table[size - 1].min
    ensures CrewPenaltyOf(size, current, table[size - 1].min, table).Some?
    ensures CrewPenaltyOf(size, current, table[size - 1].min, table).value % 2 == 0
    ensures -2 * size <= CrewPenaltyOf(size, current, table[size - 1].min, table).value <= -2
  {
    var first := FirstShortfall(table, current, 0);
    assert first.Some?;
    assert first.value <= size - 1;
  }

  // ------------------------------------------------------------------- hull

  /** A hull value: a number, a dice expression from the hull table, or a
      base with a signed plating adjustment, shown as `<base>+n` / `<base>-n`. */
  datatype Hull = Num(n: int) | Dice(text: string) | Composite(base: Hull, delta: int)

  /** The source compares `hull == 1` loosely: the number 1 and the string "1". */
  predicate LooselyOne(h: Hull)
    ensures LooselyOne(h) ==> Render(h) == "1"
  {
    h == Num(1) || h == Dice("1")
  }

  /** The text the sheet shows. */
  function Render(h: Hull): (r: string)
    ensures h.Num? ==> 1 <= |r| && (r[0] == '-' <==> h.n < 0)
    ensures h.Num? && h.n >= 0 ==> IsDigits(r)
    ensures h.Composite? ==> 2 <= |r|
  {
    match h
    case Num(n) => IntToString(n)
    case Dice(t) => t
    case Composite(b, d) => Render(b) + (if d >= 0 then "+" else "-") + NatToString(Abs(d))
  }

  /** Reads a signed adjustment back. */
  function ParseSigned(s: string): int
    requires |s| >= 2 && (s[0] == '+' || s[0] == '-') && IsDigits(s[1..])
  {
    var magnitude: int := ParseNat(s[1..]);
    if s[0] == '+' then magnitude else -magnitude
  }

  /** The adjustment written after a composite hull's base reads back as the
      adjustment. */
  lemma CompositeRoundTrip(b: Hull, d: int)
    ensures |Render(b)| + 2 <= |Render(Composite(b, d))|
    ensures Render(Composite(b, d))[..|Render(b)|] == Render(b)
    ensures var tail := Render(Composite(b, d))[|Render(b)|..];
      (tail[0] == '+' || tail[0] == '-') && IsDigits(tail[1..]) && ParseSigned(tail) == d
  {
    var sign := if d >= 0 then "+" else "-";
    var digits := NatToString(Abs(d));
    var full := Render(Composite(b, d));
    assert full == Render(b) + (sign + digits);
    var tail := full[|Render(b)|..];
    assert tail == sign + digits;
    assert tail[1..] == digits;
    ParseNatToString(Abs(d));
  }

  /** `_addSizeMod` (lines 465-472): no (or a zero) modifier keeps the base
      hull; otherwise the shifted size is cut into the table's range and
      looked up, so the lookup is always in bounds. */
  function AddSizeMod(hullTable: seq<Hull>, hullBase: Hull, size: int, mod: Option<int>): (r: Hull)
    requires |hullTable| >= 1
    ensures OrZero(mod) == 0 ==> r == hullBase
    ensures OrZero(mod) != 0 ==> r in hullTable
    ensures OrZero(mod) != 0 && 1 <= size + OrZero(mod) <= |hullTable| ==> r == hullTable[size + OrZero(mod) - 1]
    ensures OrZero(mod) != 0 && size + OrZero(mod) < 1 ==> r == hullTable[0]
    ensures OrZero(mod) != 0 && size + OrZero(mod) > |hullTable| ==> r == hullTable[|hullTable| - 1]
  {
    if OrZero(mod) == 0 then hullBase
    else
      var newSize := size + mod.value;
      var low := if newSize < 1 then 1 else newSize;
      var clamped := if low > |hullTable| then |hullTable| else low;
      hullTable[clamped - 1]
  }

  /** `_addHullPlatingLoss` (lines 474-485): the net adjustment is the
      plating bonus less the hull boxes lost. */
  function AddHullPlatingLoss(hull: Hull, hullLost: int, plating: Option<int>): (r: Hull)
    ensures OrZero(plating) - hullLost == 0 ==> r == hull
    ensures OrZero(plating) - hullLost != 0 && LooselyOne(hull) ==> r == Num(1 + OrZero(plating) - hullLost)
    ensures OrZero(plating) - hullLost != 0 && !LooselyOne(hull) ==> r == Composite(hull, OrZero(plating) - hullLost)
  {
    var hullLoss := -hullLost;
    if Abs(hullLoss) == 0 && OrZero(plating) == 0 then hull
    else
      var platLoss := hullLoss + OrZero(plating);
      if platLoss == 0 then hull
      else if LooselyOne(hull) then Num(platLoss + 1)
      else Composite(hull, platLoss)
  }

  /** A composite hull shows its base and then the net adjustment, which
      reads back from the text. */
  lemma PlatingShownAfterBase(hull: Hull, hullLost: int, plating: Option<int>)
    requires OrZero(plating) - hullLost != 0 && !LooselyOne(hull)
    ensures var shown := Render(AddHullPlatingLoss(hull, hullLost, plating));
      |Render(hull)| + 2 <= |shown| && shown[..|Render(hull)|] == Render(hull) &&
      IsDigits(shown[|Render(hull)| + 1..]) &&
      (shown[|Render(hull)|] == '+' || shown[|Render(hull)|] == '-') &&
      ParseSigned(shown[|Render(hull)|..]) == OrZero(plating) - hullLost
  {
    CompositeRoundTrip(hull, OrZero(plating) - hullLost);
    var shown := Render(AddHullPlatingLoss(hull, hullLost, plating));
    var tail := shown[|Render(hull)|..];
    assert tail[1..] == shown[|Render(hull)| + 1..];
  }
}
