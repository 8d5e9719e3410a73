/** The value-level rules of the character base pass (`prepareBaseData` and
    `_prepareBaseDataChar`): the wealth-mode flags, the fatigue clamp and its
    status bucket, the game-mode injury multiplier and the injury-marks
    progress vector. */
module CharacterRules {
  import opened Common

  /** The global settings the base pass reads, passed in explicitly. */
  datatype Settings = Settings(
    useBallisticArmor: bool,
    wealthType: string,
    useConviction: bool,
    useToughness: bool,
    useFatigue: bool,
    usePowerPoints: bool,
    gameMode: string)

  /** The wealth flags. `useResource` is the flag line 41 clears and
      `useResources` the one line 48 sets: two different fields. */
  datatype WealthFlags = WealthFlags(
    useResource: bool,
    useResources: bool,
    useIncome: bool,
    useCurrency: bool,
    useCoins: bool)

  /** Lines 41-58: clear four flags, then set the one the wealth mode names. */
  function WealthFor(prior: WealthFlags, mode: string): (w: WealthFlags)
    ensures !w.useResource
    ensures w.useIncome <==> mode == "income"
    ensures w.useCurrency <==> mode == "currency"
    ensures w.useCoins <==> mode == "coins"
    ensures w.useResources <==> (mode == "resources" || prior.useResources)
  {
    var cleared := prior.(useResource := false, useIncome := false, useCurrency := false, useCoins := false);
    if mode == "income" then cleared.(useIncome := true)
    else if mode == "resources" then cleared.(useResources := true)
    else if mode == "currency" then cleared.(useCurrency := true)
    else if mode == "coins" then cleared.(useCoins := true)
    else cleared
  }

  /** The localised fatigue labels, and `Unset` for the empty string. */
  datatype FatigueStatus = Unset | NoFatigue | Winded | Fatigued | Exhausted | Dying

  /** The fatigue value the base pass derives from the entered value: the
      magnitude of the entry, lowered to the maximum, raised to 0. */
  function ClampedFatigue(entered: int, max: int): (v: int)
    ensures 0 <= v
    ensures max >= 0 ==> v <= max
    ensures Abs(entered) <= max ==> v == Abs(entered)
    ensures Abs(entered) > max ==> v == Max(max, 0)
  {
    if max < 0 then 0 else Min(Abs(entered), max)
  }

  /** The five-bucket table of lines 131-150; any other value leaves the
      status empty (values above 4 do not collapse to Dying). */
  function FatigueStatusOf(v: int): (s: FatigueStatus)
    ensures s == Unset <==> !(0 <= v <= 4)
    ensures s == Dying <==> v == 4
    ensures s == NoFatigue <==> v == 0
  {
    match v
    case 0 => NoFatigue
    case 1 => Winded
    case 2 => Fatigued
    case 3 => Exhausted
    case 4 => Dying
    case _ => Unset
  }

  /** Lines 153-157: the injury multiplier of a severe wound by game mode; any
      other mode keeps the stored multiplier. */
  function SevereMultFor(mode: string, prior: nat): (m: nat)
    ensures mode == "none" || mode == "pulp" ==> m == 2
    ensures mode == "gritty" ==> m == 3
    ensures mode == "cinematic" ==> m == 1
    ensures mode != "none" && mode != "gritty" && mode != "pulp" && mode != "cinematic" ==> m == prior
  {
    if mode == "cinematic" then 1
    else if mode == "gritty" then 3
    else if mode == "none" || mode == "pulp" then 2
    else prior
  }

  /** `data.injury.degrees`. */
  datatype Degrees = Degrees(light: int, serious: int, severe: int, severeMult: nat)

  /** `data.injury`: the degrees, the marks, and the two derived fields. A mark
      slot is `None` while the JavaScript array entry is still undefined. */
  datatype Injury = Injury(degrees: Degrees, marks: int, totalDegrees: int, marksArray: seq<Option<bool>>)

  /** The marks the recorded degrees call for: one per light or serious wound,
      `severeMult` per severe wound. */
  function ExpectedMarks(d: Degrees): int {
    d.light + d.serious + d.severe * d.severeMult
  }

  /** The progress vector: `n` undefined slots when there is no severe wound,
      otherwise slot `m` is set exactly when the marks deficit is at most `m`. */
  function MarksArray(n: nat, severe: int, diffMarks: int): (a: seq<Option<bool>>)
    ensures |a| == n
  {
    if severe == 0 then seq(n, _ => None)
    else seq(n, m => Some(diffMarks <= m))
  }

  /** The loop of lines 161-166, filling a fresh array of `severeMult`
      undefined slots. */
  method BuildMarksArray(severeMult: nat, severe: int, diffMarks: int) returns (marks: seq<Option<bool>>)
    ensures marks == MarksArray(severeMult, severe, diffMarks)
  {
    marks := seq(severeMult, _ => None);
    if severe != 0 {
      var m := 0;
      while m < |marks|
        invariant 0 <= m <= |marks| == severeMult
        invariant forall j :: 0 <= j < m ==> marks[j] == Some(diffMarks <= j)
        invariant forall j :: m <= j < |marks| ==> marks[j] == None
      {
        marks := marks[m := Some(diffMarks <= m)];
        m := m + 1;
      }
    }
  }

  function CountTrue(a: seq<Option<bool>>): nat {
    if a == [] then 0 else CountTrue(a[..|a| - 1]) + (if a[|a| - 1] == Some(true) then 1 else 0)
  }

  /** With a severe wound every slot is defined and the set slots form a suffix:
      once a slot is set, every later slot is set. */
  lemma MarksArraySuffix(n: nat, severe: int, diffMarks: int, i: nat, j: nat)
    requires severe != 0 && i <= j < n
    ensures MarksArray(n, severe, diffMarks)[i].Some?
    ensures MarksArray(n, severe, diffMarks)[i] == Some(true) ==> MarksArray(n, severe, diffMarks)[j] == Some(true)
  {
  }

  /** The number of set slots is the multiplier minus the marks deficit, taken
      within `[0, n]`: every slot when the marks already meet the degrees, none
      when the deficit is `n` or more. */
  lemma {:induction false} MarksTrueCount(n: nat, severe: int, diffMarks: int)
    requires severe != 0
    ensures CountTrue(MarksArray(n, severe, diffMarks)) ==
      n - (if diffMarks < 0 then 0 else if diffMarks > n then n else diffMarks)
  {
    if n > 0 {
      var a := MarksArray(n, severe, diffMarks);
      assert a[..n - 1] == MarksArray(n - 1, severe, diffMarks);
      MarksTrueCount(n - 1, severe, diffMarks);
    }
  }

  /** With no severe wound no slot is ever set. */
  lemma {:induction false} MarksUnsetWithoutSevere(n: nat, diffMarks: int)
    ensures CountTrue(MarksArray(n, 0, diffMarks)) == 0
  {
    if n > 0 {
      var a := MarksArray(n, 0, diffMarks);
      assert a[..n - 1] == MarksArray(n - 1, 0, diffMarks);
      MarksUnsetWithoutSevere(n - 1, diffMarks);
    }
  }
}
