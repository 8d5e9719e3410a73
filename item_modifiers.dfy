/** The character modifier aggregator (`_charItemModifiers`, first half): a fold
    over the owned items into a bag of modifiers. Numeric keys are summed over
    the contributing items; the reserved `focus` key collects `{name, value}`
    records in item order. */
module ItemModifiers {
  import opened Common
  import opened Items

  const FocusKey := "focus"

  datatype FocusBonus = FocusBonus(name: string, value: int)

  /** The `mods` object: `nums` holds every numeric key, `focus` the list kept
      under the reserved `focus` key (the key is present exactly when the list
      is non-empty). */
  datatype ModBag = ModBag(nums: map<string, int>, focus: seq<FocusBonus>)

  /** An item takes part when it carries an `itemMods` mapping and is equipped
      or activated. */
  predicate Gated(i: Item) {
    i.itemMods.Some? && (i.equiped || i.activate)
  }

  /** Key `k` of item `i` contributes when the item takes part and the entry is
      both selected and active. */
  predicate Contributes(i: Item, k: string) {
    Gated(i) && k in i.itemMods.value && i.itemMods.value[k].selected && i.itemMods.value[k].isActive
  }

  function Contribution(i: Item, k: string): int {
    if Contributes(i, k) then i.itemMods.value[k].value else 0
  }

  function FocusOf(i: Item): seq<FocusBonus> {
    if Contributes(i, FocusKey) then [FocusBonus(i.itemMods.value[FocusKey].name, i.itemMods.value[FocusKey].value)]
    else []
  }

  /** Reference definitions: the sum of the contributions to `k`, whether any
      item contributes to `k`, and the focus records in item order. */
  function KeySum(items: seq<Item>, k: string): int {
    if items == [] then 0 else KeySum(items[..|items| - 1], k) + Contribution(items[|items| - 1], k)
  }

  predicate AnyContributes(items: seq<Item>, k: string) {
    exists j :: 0 <= j < |items| && Contributes(items[j], k)
  }

  function FocusList(items: seq<Item>): seq<FocusBonus> {
    if items == [] then [] else FocusList(items[..|items| - 1]) + FocusOf(items[|items| - 1])
  }

  /** `mods.key ?? 0` for a numeric key. */
  function ModOr0(bag: ModBag, k: string): int {
    if k in bag.nums then bag.nums[k] else 0
  }

  /** What a bag must hold after the items `items` have been folded in: a
      numeric key exactly when some item contributes to it, with the sum of the
      contributions, and the focus records of the contributing items in order. */
  ghost predicate Summarises(mods: ModBag, items: seq<Item>) {
    && FocusKey !in mods.nums
    && (forall k :: k != FocusKey ==> (k in mods.nums <==> AnyContributes(items, k)))
    && (forall k :: k in mods.nums ==> mods.nums[k] == KeySum(items, k))
    && mods.focus == FocusList(items)
  }

  /** The aggregation loop of lines 182-204. Read with `?? 0`, every numeric
      key gives the sum of the contributions, 0 when nobody contributes. */
  method CollectMods(items: seq<Item>) returns (mods: ModBag)
    ensures Summarises(mods, items)
  {
    mods := ModBag(map[], []);
    var i := 0;
    while i < |items|
      invariant 0 <= i <= |items|
      invariant Summarises(mods, items[..i])
    {
      assert items[..i + 1] == items[..i] + [items[i]];
      mods := AddItemMods(mods, items[..i], items[i]);
      i := i + 1;
    }
    assert items[..|items|] == items;
  }

  /** Read with `?? 0`, a summarising bag gives every numeric key the sum of
      the contributions, 0 when nobody contributes. */
  lemma SummarisedReads(mods: ModBag, items: seq<Item>, k: string)
    requires Summarises(mods, items) && k != FocusKey
    ensures ModOr0(mods, k) == KeySum(items, k)
    ensures k in mods.nums <==> AnyContributes(items, k)
  {
    if k !in mods.nums {
      KeySumWithoutContributors(items, k);
    }
  }

  /** Lines 188-201: fold one selected and active entry into the bag. The
      focus entry appends its record; a numeric key is added to the running
      sum, or starts it when absent. */
  function FoldEntry(r: ModBag, key: string, e: ModEntry): ModBag {
    if !(e.selected && e.isActive) then r
    else if key == FocusKey then r.(focus := r.focus + [FocusBonus(e.name, e.value)])
    else if key in r.nums then r.(nums := r.nums[key := r.nums[key] + e.value])
    else r.(nums := r.nums[key := e.value])
  }

  /** A bag part-way through one item: the items `done` are folded in, and of
      `it` the keys outside `todo`. */
  ghost predicate PartlyFolded(r: ModBag, done: seq<Item>, it: Item, todo: set<string>) {
    && FocusKey !in r.nums
    && (forall k :: k != FocusKey ==>
          (k in r.nums <==> AnyContributes(done, k) || (k !in todo && Contributes(it, k))))
    && (forall k :: k in r.nums ==>
          r.nums[k] == KeySum(done, k) + (if k !in todo then Contribution(it, k) else 0))
    && r.focus == FocusList(done) + (if FocusKey !in todo then FocusOf(it) else [])
  }

  /** Folding one more entry of a taking-part item keeps the bag part-way. */
  lemma FoldEntryStep(r: ModBag, done: seq<Item>, it: Item, todo: set<string>, key: string)
    requires Gated(it) && key in todo && key in it.itemMods.value
    requires PartlyFolded(r, done, it, todo)
    ensures PartlyFolded(FoldEntry(r, key, it.itemMods.value[key]), done, it, todo - {key})
  {
    var e := it.itemMods.value[key];
    if !(e.selected && e.isActive) {
      FoldInactiveEntry(r, done, it, todo, key);
    } else if key == FocusKey {
      FoldFocusEntry(r, done, it, todo);
    } else {
      FoldNumericEntry(r, done, it, todo, key);
    }
  }

  lemma FoldInactiveEntry(r: ModBag, done: seq<Item>, it: Item, todo: set<string>, key: string)
    requires Gated(it) && key in todo && key in it.itemMods.value
    requires !(it.itemMods.value[key].selected && it.itemMods.value[key].isActive)
    requires PartlyFolded(r, done, it, todo)
    ensures PartlyFolded(FoldEntry(r, key, it.itemMods.value[key]), done, it, todo - {key})
  {
    assert !Contributes(it, key);
  }

  lemma FoldFocusEntry(r: ModBag, done: seq<Item>, it: Item, todo: set<string>)
    requires Gated(it) && FocusKey in todo && FocusKey in it.itemMods.value
    requires it.itemMods.value[FocusKey].selected && it.itemMods.value[FocusKey].isActive
    requires PartlyFolded(r, done, it, todo)
    ensures PartlyFolded(FoldEntry(r, FocusKey, it.itemMods.value[FocusKey]), done, it, todo - {FocusKey})
  {
    assert FoldEntry(r, FocusKey, it.itemMods.value[FocusKey]).nums == r.nums;
  }

  lemma FoldNumericEntry(r: ModBag, done: seq<Item>, it: Item, todo: set<string>, key: string)
    requires Gated(it) && key in todo && key in it.itemMods.value && key != FocusKey
    requires it.itemMods.value[key].selected && it.itemMods.value[key].isActive
    requires PartlyFolded(r, done, it, todo)
    ensures PartlyFolded(FoldEntry(r, key, it.itemMods.value[key]), done, it, todo - {key})
  {
    if key !in r.nums {
      KeySumWithoutContributors(done, key);
    }
    var r' := FoldEntry(r, key, it.itemMods.value[key]);
    assert r'.focus == r.focus;
    assert r'.nums == r.nums[key := KeySum(done, key) + Contribution(it, key)];
  }

  /** The body of the `forEach` callback (lines 184-203): fold one item's
      entries into a bag that summarises the items before it. */
  method AddItemMods(mods: ModBag, ghost done: seq<Item>, it: Item) returns (r: ModBag)
    requires Summarises(mods, done)
    ensures Summarises(r, done + [it])
  {
    SnocFacts(done, it);
    r := mods;
    if it.itemMods.Some? && (it.equiped || it.activate) {
      var itemMod := it.itemMods.value;
      var todo := itemMod.Keys;
      while todo != {}
        invariant todo <= itemMod.Keys
        invariant PartlyFolded(r, done, it, todo)
        decreases todo
      {
        var modKey :| modKey in todo;
        FoldEntryStep(r, done, it, todo, modKey);
        r := FoldEntry(r, modKey, itemMod[modKey]);
        todo := todo - {modKey};
      }
    }
  }

  /** Folding in one more item: its contribution is added to every sum, it
      joins the contributors of the keys it contributes to, and its focus
      record goes at the end of the list. */
  lemma SnocFacts(done: seq<Item>, it: Item)
    ensures forall k :: KeySum(done + [it], k) == KeySum(done, k) + Contribution(it, k)
    ensures forall k :: AnyContributes(done + [it], k) <==> AnyContributes(done, k) || Contributes(it, k)
    ensures FocusList(done + [it]) == FocusList(done) + FocusOf(it)
  {
    var s := done + [it];
    assert s[..|s| - 1] == done;
    forall k ensures AnyContributes(s, k) <==> AnyContributes(done, k) || Contributes(it, k) {
      if AnyContributes(done, k) {
        var j :| 0 <= j < |done| && Contributes(done[j], k);
        assert s[j] == done[j];
      }
      if Contributes(it, k) {
        assert s[|done|] == it;
      }
    }
  }

  /** A key nobody contributes to sums to 0. */
  lemma {:induction false} KeySumWithoutContributors(items: seq<Item>, k: string)
    requires !AnyContributes(items, k)
    ensures KeySum(items, k) == 0
  {
    if items != [] {
      var init := items[..|items| - 1];
      forall j | 0 <= j < |init|
        ensures !Contributes(init[j], k)
      {
        assert init[j] == items[j];
      }
      KeySumWithoutContributors(init, k);
      assert !Contributes(items[|items| - 1], k);
    }
  }

  /** Aggregation over two runs of items is the sum of the aggregations: the
      numeric modifiers do not depend on how the items are grouped. */
  lemma {:induction false} KeySumAppend(a: seq<Item>, b: seq<Item>, k: string)
    ensures KeySum(a + b, k) == KeySum(a, k) + KeySum(b, k)
  {
    if b != [] {
      assert (a + b)[..|a + b| - 1] == a + b[..|b| - 1];
      KeySumAppend(a, b[..|b| - 1], k);
    } else {
      assert a + b == a;
    }
  }

  /** The focus records of two runs of items are the records of the first run
      followed by those of the second (item order is kept). */
  lemma {:induction false} FocusListAppend(a: seq<Item>, b: seq<Item>)
    ensures FocusList(a + b) == FocusList(a) + FocusList(b)
  {
    if b != [] {
      assert (a + b)[..|a + b| - 1] == a + b[..|b| - 1];
      FocusListAppend(a, b[..|b| - 1]);
    } else {
      assert a + b == a;
    }
  }

  /** An item without a modifier mapping, or neither equipped nor activated,
      changes neither any sum nor the focus list. */
  lemma UngatedItemIgnored(items: seq<Item>, it: Item, k: string)
    requires !Gated(it)
    ensures KeySum(items + [it], k) == KeySum(items, k)
    ensures FocusList(items + [it]) == FocusList(items)
  {
    assert (items + [it])[..|items|] == items;
  }

  /** Wherever it stands in the list, an item the loop skips changes neither
      any sum nor the focus list. */
  lemma UngatedItemIgnoredAnywhere(a: seq<Item>, it: Item, b: seq<Item>, k: string)
    requires !Gated(it)
    ensures KeySum(a + [it] + b, k) == KeySum(a + b, k)
    ensures FocusList(a + [it] + b) == FocusList(a + b)
  {
    UngatedItemIgnored(a, it, k);
    KeySumAppend(a + [it], b, k);
    KeySumAppend(a, b, k);
    FocusListAppend(a + [it], b);
    FocusListAppend(a, b);
  }

  /** The numeric sums do not depend on the order of two runs of items (the
      focus list, by contrast, keeps item order). */
  lemma KeySumRunsCommute(a: seq<Item>, b: seq<Item>, k: string)
    ensures KeySum(a + b, k) == KeySum(b + a, k)
  {
    KeySumAppend(a, b, k);
    KeySumAppend(b, a, k);
  }
}
