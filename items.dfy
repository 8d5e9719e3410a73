/** Owned items as the actor engine sees them, and the case-insensitive lookup
    of a Focus item by name (`checkFocus`). */
module Items {
  import opened Common
  import opened Text

  /** One entry of an item's `itemMods` mapping. `name` is only meaningful for
      the reserved `focus` key. */
  datatype ModEntry = ModEntry(selected: bool, isActive: bool, value: int, name: string)

  /** An owned item. `itemMods` is absent when the item carries no modifier
      mapping; `equiped` (sic) and `activate` gate its modifiers;
      `finalValue` and `initialValue` are the values of a Focus item;
      `modType` is the item's `type` field and `modValue` the number stored
      under that key, which the spaceship bonus sum reads. */
  datatype Item = Item(
    kind: string,
    id: string,
    name: string,
    equiped: bool,
    activate: bool,
    itemMods: Option<map<string, ModEntry>>,
    finalValue: int,
    initialValue: int,
    useAbl: string,
    modType: string,
    modValue: int)

  /** The three shapes of `checkFocus`'s answer: no name asked for (every field
      null, value 0), a name no owned Focus carries (`focusItem: false`, value 0),
      and the first owned Focus whose name matches. */
  datatype FocusCheck = Unnamed | NotOwned(focusName: string) | Owned(focusName: string, focus: Item)
  {
    /** The `value` field of the answer. */
    function Value(): int {
      if Owned? then focus.finalValue else 0
    }
    /** `focusItem.data.data.initialValue` when a Focus item was found, 0 otherwise. */
    function InitialValueOrZero(): int {
      if Owned? then focus.initialValue else 0
    }
  }

  predicate MatchesFocus(i: Item, lowerName: string) {
    i.kind == "focus" && Lower(i.name) == lowerName
  }

  /** The first index at or after `from` holding a Focus named `lowerName`
      (compared lower-cased). */
  function FirstFocusFrom(items: seq<Item>, lowerName: string, from: nat): (r: Option<nat>)
    requires from <= |items|
    ensures r.Some? ==> from <= r.value < |items| && MatchesFocus(items[r.value], lowerName)
    ensures r.Some? ==> forall j :: from <= j < r.value ==> !MatchesFocus(items[j], lowerName)
    ensures r.None? ==> forall j :: from <= j < |items| ==> !MatchesFocus(items[j], lowerName)
    decreases |items| - from
  {
    if from == |items| then None
    else if MatchesFocus(items[from], lowerName) then Some(from)
    else FirstFocusFrom(items, lowerName, from + 1)
  }

  /** `checkFocus(namedFocus)`: an empty name asks for nothing; otherwise the
      answer is the first owned Focus whose lower-cased name equals the
      lower-cased request, or NotOwned when there is none. */
  function CheckFocus(items: seq<Item>, namedFocus: string): (r: FocusCheck)
    ensures r.Unnamed? <==> namedFocus == ""
    ensures r.NotOwned? ==>
      (r.focusName == namedFocus &&
       forall j :: 0 <= j < |items| ==> !MatchesFocus(items[j], Lower(namedFocus)))
    ensures r.Owned? ==>
      (r.focusName == namedFocus &&
       exists k :: 0 <= k < |items| && items[k] == r.focus &&
         MatchesFocus(items[k], Lower(namedFocus)) &&
         forall j :: 0 <= j < k ==> !MatchesFocus(items[j], Lower(namedFocus)))
    ensures r.Value() != 0 ==> r.Owned?
  {
    if namedFocus == "" then Unnamed
    else
      match FirstFocusFrom(items, Lower(namedFocus), 0)
      case None => NotOwned(namedFocus)
      case Some(k) => Owned(namedFocus, items[k])
  }
}
