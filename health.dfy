/** The values computed by `applyInjury` and `applyHPchange`: the arithmetic of
    an injury (which degree grows, how many marks are added) and the three ways
    a hit-point change resolves. The writes that follow them are modelled by
    the Character class. */
module Health {
  import opened Common
  import opened CharacterRules

  datatype DegreeName = Light | Serious | Severe

  /** The summary `applyInjury` returns, less the actor's name and picture. */
  datatype InjurySummary = InjurySummary(degree: DegreeName, totalInjuries: Degrees, newMarks: int)

  /** Lines 629-652 without the write: nothing when injuries are not in use or
      the actor is not a character; otherwise the named degree grows by one and
      the marks grow by the severe multiplier for a severe wound, by one for
      any other. */
  function ApplyInjury(useInjury: bool, kind: ActorKind, d: Degrees, marks: int, degree: DegreeName)
    : (r: Option<InjurySummary>)
    ensures r.Some? <==> useInjury && kind == Char
    ensures r.Some? ==> r.value.degree == degree
    ensures r.Some? ==> r.value.totalInjuries.severeMult == d.severeMult
    ensures r.Some? ==> r.value.totalInjuries.light == d.light + (if degree == Light then 1 else 0)
    ensures r.Some? ==> r.value.totalInjuries.serious == d.serious + (if degree == Serious then 1 else 0)
    ensures r.Some? ==> r.value.totalInjuries.severe == d.severe + (if degree == Severe then 1 else 0)
    ensures r.Some? ==> r.value.newMarks == marks + (if degree == Severe then d.severeMult else 1)
  {
    if !useInjury || kind != Char then None
    else
      var total := match degree
        case Light => d.(light := d.light + 1)
        case Serious => d.(serious := d.serious + 1)
        case Severe => d.(severe := d.severe + 1);
      var added := if degree == Severe then d.severeMult else 1;
      Some(InjurySummary(degree, total, marks + added))
  }

  /** An injury keeps the marks in step with the degrees: the gap between the
      marks the degrees call for and the marks recorded is the same before and
      after, so the progress vector the next base pass derives does not move
      while a severe wound is already recorded. */
  lemma ApplyInjuryKeepsDeficit(useInjury: bool, d: Degrees, marks: int, degree: DegreeName)
    requires useInjury
    ensures var s := ApplyInjury(useInjury, Char, d, marks, degree).value;
      ExpectedMarks(s.totalInjuries) - s.newMarks == ExpectedMarks(d) - marks
    ensures var s := ApplyInjury(useInjury, Char, d, marks, degree).value;
      d.severe != 0 && d.severe + 1 != 0 ==>
        MarksArray(d.severeMult, s.totalInjuries.severe, ExpectedMarks(s.totalInjuries) - s.newMarks)
        == MarksArray(d.severeMult, d.severe, ExpectedMarks(d) - marks)
  {
    var s := ApplyInjury(useInjury, Char, d, marks, degree).value;
    if degree == Severe {
      assert s.totalInjuries.severe * d.severeMult == d.severe * d.severeMult + d.severeMult;
    }
  }

  /** Which stored field `applyHPchange` writes. */
  datatype HPPath = HealthValue | StabilityValue

  /** The summary `applyHPchange` returns, less the actor's name and picture. */
  datatype HPSummary = HPSummary(previousHP: int, isHealing: bool, newHP: int, path: HPPath)

  /** Lines 655-693 without the write. A character's hit points are
      `health.value`, capped by `health.set` when healing; an organization's
      are `combat.stability.value`, with no cap. Any other actor kind answers
      `false` (None). A new-HP call takes the value as given, damage never
      goes below 0. */
  function ApplyHPChange(
    kind: ActorKind, healthValue: int, healthSet: int, stabilityValue: int,
    newValue: int, isHealing: bool, isNewHP: bool): (r: Option<HPSummary>)
    ensures r.Some? <==> kind == Char || kind == Organization
    ensures r.Some? ==> r.value.isHealing == isHealing
    ensures r.Some? ==> r.value.previousHP == (if kind == Char then healthValue else stabilityValue)
    ensures r.Some? ==> r.value.path == (if kind == Char then HealthValue else StabilityValue)
    ensures r.Some? && isNewHP ==> r.value.newHP == newValue
    ensures r.Some? && !isNewHP && !isHealing ==>
      r.value.newHP >= 0 && r.value.newHP <= Max(r.value.previousHP - newValue, 0)
      && (r.value.previousHP - newValue >= 0 ==> r.value.newHP == r.value.previousHP - newValue)
    ensures kind == Char && !isNewHP && isHealing ==>
      r.value.newHP <= healthSet && r.value.newHP <= healthValue + newValue
      && (r.value.newHP == healthSet || r.value.newHP == healthValue + newValue)
    ensures kind == Organization && !isNewHP && isHealing ==> r.value.newHP == stabilityValue + newValue
  {
    match kind
    case Char =>
      var newHP :=
        if isNewHP then newValue
        else if isHealing then Min(healthValue + newValue, healthSet)
        else Max(healthValue - newValue, 0);
      Some(HPSummary(healthValue, isHealing, newHP, HealthValue))
    case Organization =>
      var newHP :=
        if isNewHP then newValue
        else if isHealing then stabilityValue + newValue
        else Max(stabilityValue - newValue, 0);
      Some(HPSummary(stabilityValue, isHealing, newHP, StabilityValue))
    case _ => None
  }

  /** Healing a character and then damaging it by the same amount never leaves
      it with more hit points than it started with. */
  lemma HealThenDamageNoGain(healthValue: int, healthSet: int, v: int)
    requires healthValue >= 0
    ensures var healed := ApplyHPChange(Char, healthValue, healthSet, 0, v, true, false).value.newHP;
      ApplyHPChange(Char, healed, healthSet, 0, v, false, false).value.newHP <= healthValue
  {
  }
}
