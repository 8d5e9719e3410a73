/** The passenger pass shared by vehicles (`_prepareBaseDataVehicle`) and
    spaceships (`sortPassengers`): every stored passenger is looked up in the
    actor registry, refreshed from it, flagged as conductor or not, and the
    conductor's handling ability and focus are added to the defense; then the
    indices of passengers the registry no longer knows are removed one by one
    with `splice(i, 1)`, which shifts later indices after the first removal. */
module Passengers {
  import opened Common
  import opened Items

  /** The ability and the focus the conductor drives with. */
  datatype Handling = Handling(useAbl: string, useFocus: string)

  /** The conductor's focus bonus: the `initialValue` of the vehicle's own
      Focus item named by the handling focus (`checkFocus` runs on the
      vehicle's items, not the conductor's), 0 when there is none. */
  function HandlingFocusValue(items: seq<Item>, h: Handling): (v: int)
    ensures v != 0 ==> CheckFocus(items, h.useFocus).Owned?
  {
    CheckFocus(items, h.useFocus).InitialValueOrZero()
  }

  /** A stored passenger record. */
  datatype Passenger = Passenger(id: string, isToken: bool, name: string, picture: string, isConductor: bool)

  /** What the registry knows of an actor: its name, its token image and the
      total of each of its abilities. */
  datatype ActorInfo = ActorInfo(name: string, picture: string, abilityTotals: map<string, int>)

  /** The world's actors by id and the scene tokens by id; `ready` is false
      while the registry does not exist yet. */
  datatype Registry = Registry(ready: bool, actors: map<string, ActorInfo>, tokens: map<string, ActorInfo>)

  /** Token passengers are looked up among tokens, the others among actors. */
  function Lookup(reg: Registry, p: Passenger): (r: Option<ActorInfo>)
    ensures r.Some? <==> (if p.isToken then p.id in reg.tokens else p.id in reg.actors)
  {
    if p.isToken then (if p.id in reg.tokens then Some(reg.tokens[p.id]) else None)
    else if p.id in reg.actors then Some(reg.actors[p.id]) else None
  }

  predicate Known(reg: Registry, p: Passenger) {
    Lookup(reg, p).Some?
  }

  /** The passenger is the registered conductor of the vehicle. */
  predicate IsConductor(reg: Registry, p: Passenger, conductor: string) {
    p.id == conductor && Known(reg, p)
  }

  /** The source reads `abilities[useAbl].total` of the conductor's registry
      entry and fails when that ability is missing, so a passenger pass
      demands it of every registered conductor entry. */
  predicate ConductorHasAbility(ps: seq<Passenger>, reg: Registry, conductor: string, useAbl: string) {
    forall i :: 0 <= i < |ps| && IsConductor(reg, ps[i], conductor) ==>
      useAbl in Lookup(reg, ps[i]).value.abilityTotals
  }

  /** One passenger once the registry is available. */
  function Resolve(p: Passenger, reg: Registry, conductor: string): (r: Passenger)
    ensures r.id == p.id && r.isToken == p.isToken
    ensures r.isConductor <==> IsConductor(reg, p, conductor)
    ensures Known(reg, p) ==>
      r.name == Lookup(reg, p).value.name && r.picture == Lookup(reg, p).value.picture
    ensures !Known(reg, p) ==> r.name == p.name && r.picture == p.picture
  {
    var info := Lookup(reg, p);
    var refreshed := if info.Some? then p.(name := info.value.name, picture := info.value.picture) else p;
    refreshed.(isConductor := p.id == conductor && info.Some?)
  }

  /** The passenger list after the resolution loop: untouched while the
      registry is missing, every entry resolved otherwise. */
  function ResolvedAll(ps: seq<Passenger>, reg: Registry, conductor: string): (r: seq<Passenger>)
    ensures |r| == |ps|
  {
    if reg.ready then seq(|ps|, i requires 0 <= i < |ps| => Resolve(ps[i], reg, conductor)) else ps
  }

  /** The ascending indices below `n` of passengers the registry does not know. */
  function InvalidUpTo(ps: seq<Passenger>, reg: Registry, n: nat): seq<nat>
    requires n <= |ps|
  {
    if n == 0 then []
    else InvalidUpTo(ps, reg, n - 1) + (if Known(reg, ps[n - 1]) then [] else [n - 1])
  }

  /** The `invalidPassengers` list the resolution loop collects. */
  function InvalidIndices(ps: seq<Passenger>, reg: Registry): seq<nat> {
    if reg.ready then InvalidUpTo(ps, reg, |ps|) else []
  }

  /** What one passenger adds to `defenseTotal`: the conductor's handling
      ability total plus the focus value, nothing for anyone else. */
  function ConductorShare(p: Passenger, reg: Registry, conductor: string, useAbl: string, focusValue: int): (r: int)
    requires IsConductor(reg, p, conductor) ==> useAbl in Lookup(reg, p).value.abilityTotals
    ensures p.id != conductor || !Known(reg, p) ==> r == 0
    ensures r != 0 ==> p.id == conductor && Lookup(reg, p).Some?
  {
    if IsConductor(reg, p, conductor) then Lookup(reg, p).value.abilityTotals[useAbl] + focusValue else 0
  }

  /** The defense added by the first `n` passengers. */
  function ConductorBonusUpTo(ps: seq<Passenger>, reg: Registry, conductor: string, useAbl: string, focusValue: int, n: nat): int
    requires n <= |ps| && ConductorHasAbility(ps, reg, conductor, useAbl)
  {
    if n == 0 then 0
    else ConductorBonusUpTo(ps, reg, conductor, useAbl, focusValue, n - 1) + ConductorShare(ps[n - 1], reg, conductor, useAbl, focusValue)
  }

  /** The defense the resolution loop adds: nothing while the registry is missing. */
  function ConductorBonus(ps: seq<Passenger>, reg: Registry, conductor: string, useAbl: string, focusValue: int): int
    requires ConductorHasAbility(ps, reg, conductor, useAbl)
  {
    if reg.ready then ConductorBonusUpTo(ps, reg, conductor, useAbl, focusValue, |ps|) else 0
  }

  /** The resolution loop (lines 343-366, 524-546). Without a registry every
      passenger defers the actor to the post-ready queue; `deferred` counts
      those pushes. `focusValue` is the conductor focus value the caller took
      from its own items. */
  method ResolvePassengers(ps: seq<Passenger>, reg: Registry, conductor: string, useAbl: string, focusValue: int)
      returns (resolved: seq<Passenger>, invalid: seq<nat>, defenseAdd: int, deferred: nat)
    requires ConductorHasAbility(ps, reg, conductor, useAbl)
    ensures resolved == ResolvedAll(ps, reg, conductor)
    ensures invalid == InvalidIndices(ps, reg)
    ensures defenseAdd == ConductorBonus(ps, reg, conductor, useAbl, focusValue)
    ensures deferred == if reg.ready then 0 else |ps|
  {
    resolved, invalid, defenseAdd, deferred := [], [], 0, 0;
    for i := 0 to |ps|
      invariant |resolved| == i
      invariant forall j :: 0 <= j < i ==> resolved[j] == if reg.ready then Resolve(ps[j], reg, conductor) else ps[j]
      invariant invalid == if reg.ready then InvalidUpTo(ps, reg, i) else []
      invariant defenseAdd == if reg.ready then ConductorBonusUpTo(ps, reg, conductor, useAbl, focusValue, i) else 0
      invariant deferred == if reg.ready then 0 else i
    {
      var p := ps[i];
      if !reg.ready {
        resolved := resolved + [p];
        deferred := deferred + 1;
      } else {
        var info := Lookup(reg, p);
        if info.None? {
          invalid := invalid + [i];
        }
        resolved := resolved + [Resolve(p, reg, conductor)];
        defenseAdd := defenseAdd + ConductorShare(p, reg, conductor, useAbl, focusValue);
      }
    }
  }

  /** `Array.prototype.splice(i, 1)`: removes the entry at `i`, or nothing
      when `i` is past the end. */
  function SpliceAt<T>(xs: seq<T>, i: nat): (r: seq<T>)
    ensures i < |xs| ==> |r| == |xs| - 1 && r == xs[..i] + xs[i + 1..]
    ensures i >= |xs| ==> r == xs
  {
    if i < |xs| then xs[..i] + xs[i + 1..] else xs
  }

  /** The removal loop (lines 368-371, 548-551): splice at each collected
      index in turn, on the list as the previous splices left it. */
  function SpliceAll<T>(xs: seq<T>, idxs: seq<nat>): seq<T>
    decreases |idxs|
  {
    if idxs == [] then xs else SpliceAll(SpliceAt(xs, idxs[0]), idxs[1..])
  }

  method SpliceLoop<T>(xs: seq<T>, idxs: seq<nat>) returns (r: seq<T>)
    ensures r == SpliceAll(xs, idxs)
  {
    r := xs;
    for k := 0 to |idxs|
      invariant SpliceAll(r, idxs[k..]) == SpliceAll(xs, idxs)
    {
      assert idxs[k..][1..] == idxs[k + 1..];
      r := SpliceAt(r, idxs[k]);
    }
    assert idxs[|idxs|..] == [];
  }

  /** Each splice removes at most one entry. */
  lemma {:induction false} SpliceAllLength<T>(xs: seq<T>, idxs: seq<nat>)
    ensures |xs| - |idxs| <= |SpliceAll(xs, idxs)| <= |xs|
    decreases |idxs|
  {
    if idxs != [] {
      SpliceAllLength(SpliceAt(xs, idxs[0]), idxs[1..]);
    }
  }

  /** Keeps the entries `ok` accepts, in order. */
  function Keep<T>(xs: seq<T>, ok: T -> bool): (r: seq<T>)
    ensures |r| <= |xs|
  {
    if xs == [] then []
    else (if ok(xs[0]) then [xs[0]] else []) + Keep(xs[1..], ok)
  }

  /** The filter the removal loop is meant to be: keep the known passengers. */
  function KeepKnown(ps: seq<Passenger>, reg: Registry): seq<Passenger> {
    Keep(ps, p => Known(reg, p))
  }

  /** Resolution keeps id and token flag, so it keeps who is known. */
  lemma ResolveKeepsKnown(p: Passenger, reg: Registry, conductor: string)
    ensures Known(reg, Resolve(p, reg, conductor)) == Known(reg, p)
  {
  }

  /** The collected indices are exactly the positions below `n` of unknown
      passengers, in strictly ascending order. */
  lemma {:induction false} InvalidUpToExact(ps: seq<Passenger>, reg: Registry, n: nat)
    requires n <= |ps|
    ensures forall k :: 0 <= k < |InvalidUpTo(ps, reg, n)| ==>
      InvalidUpTo(ps, reg, n)[k] < n && !Known(reg, ps[InvalidUpTo(ps, reg, n)[k]])
    ensures forall j :: 0 <= j < n && !Known(reg, ps[j]) ==> j in InvalidUpTo(ps, reg, n)
    ensures forall k, l :: 0 <= k < l < |InvalidUpTo(ps, reg, n)| ==>
      InvalidUpTo(ps, reg, n)[k] < InvalidUpTo(ps, reg, n)[l]
  {
    if n > 0 {
      InvalidUpToExact(ps, reg, n - 1);
    }
  }

  /** Filtering a list whose every entry is accepted keeps it whole. */
  lemma {:induction false} KeepAll<T>(xs: seq<T>, ok: T -> bool)
    requires forall j :: 0 <= j < |xs| ==> ok(xs[j])
    ensures Keep(xs, ok) == xs
    decreases |xs|
  {
    if xs != [] {
      KeepAll(xs[1..], ok);
    }
  }

  /** Splicing out the one rejected entry is the filter. */
  lemma {:induction false} SpliceSoleRejected<T>(xs: seq<T>, ok: T -> bool, i: nat)
    requires i < |xs| && !ok(xs[i])
    requires forall j :: 0 <= j < |xs| && j != i ==> ok(xs[j])
    ensures SpliceAt(xs, i) == Keep(xs, ok)
    decreases i
  {
    var tail := xs[1..];
    forall j | 0 <= j < |tail| && j + 1 != i
      ensures ok(tail[j])
    {
      assert tail[j] == xs[j + 1];
    }
    if i == 0 {
      KeepAll(tail, ok);
      assert Keep(xs, ok) == Keep(tail, ok);
    } else {
      assert tail[i - 1] == xs[i];
      SpliceSoleRejected(tail, ok, i - 1);
      assert Keep(xs, ok) == [xs[0]] + Keep(tail, ok);
      assert xs[..i] == [xs[0]] + tail[..i - 1];
      assert xs[i + 1..] == tail[i..];
    }
  }

  /** A single collected index names the one unknown passenger. */
  lemma SoleInvalid(ps: seq<Passenger>, reg: Registry, i: nat)
    requires InvalidUpTo(ps, reg, |ps|) == [i]
    ensures i < |ps| && !Known(reg, ps[i])
    ensures forall j :: 0 <= j < |ps| && j != i ==> Known(reg, ps[j])
  {
    var inv := InvalidUpTo(ps, reg, |ps|);
    InvalidUpToExact(ps, reg, |ps|);
    assert inv[0] == i;
    forall j | 0 <= j < |ps| && j != i
      ensures Known(reg, ps[j])
    {
      if !Known(reg, ps[j]) {
        assert false;
      }
    }
  }

  /** With at most one unknown passenger the removal loop is the filter that
      keeps the known passengers. */
  lemma SpliceFiltersAtMostOneInvalid(ps: seq<Passenger>, reg: Registry)
    requires reg.ready && |InvalidIndices(ps, reg)| <= 1
    ensures SpliceAll(ps, InvalidIndices(ps, reg)) == KeepKnown(ps, reg)
  {
    var inv := InvalidUpTo(ps, reg, |ps|);
    if inv == [] {
      InvalidUpToExact(ps, reg, |ps|);
      KeepAll(ps, p => Known(reg, p));
    } else {
      var i := inv[0];
      assert inv == [i];
      SoleInvalid(ps, reg, i);
      assert SpliceAll(ps, inv) == SpliceAll(SpliceAt(ps, i), []);
      SpliceSoleRejected(ps, p => Known(reg, p), i);
    }
  }

  /** Two unknown passengers in a row: the second shifts into the first's
      slot, so the second splice removes the known passenger behind it and
      the unknown one stays. */
  lemma AdjacentInvalidKeepsUnknown(a: Passenger, b: Passenger, c: Passenger, reg: Registry)
    requires reg.ready && !Known(reg, a) && !Known(reg, b) && Known(reg, c)
    ensures InvalidIndices([a, b, c], reg) == [0, 1]
    ensures SpliceAll([a, b, c], InvalidIndices([a, b, c], reg)) == [b]
    ensures KeepKnown([a, b, c], reg) == [c]
  {
    var ps := [a, b, c];
    assert InvalidUpTo(ps, reg, 1) == [0];
    assert InvalidUpTo(ps, reg, 2) == [0, 1];
    assert SpliceAt(ps, 0) == [b, c];
    assert SpliceAt([b, c], 1) == [b];
    assert [0, 1][1..] == [1];
    assert KeepKnown([c], reg) == [c];
    assert KeepKnown([b, c], reg) == [c];
  }

  /** No registered conductor among the passengers: nothing is added. */
  lemma {:induction false} NoConductorNoBonus(ps: seq<Passenger>, reg: Registry, conductor: string, useAbl: string, focusValue: int, n: nat)
    requires n <= |ps|
    requires forall j :: 0 <= j < |ps| ==> !IsConductor(reg, ps[j], conductor)
    ensures ConductorBonusUpTo(ps, reg, conductor, useAbl, focusValue, n) == 0
  {
    if n > 0 {
      NoConductorNoBonus(ps, reg, conductor, useAbl, focusValue, n - 1);
    }
  }

  /** Exactly one registered conductor among the first `n` passengers: the
      defense gains its handling ability total plus the focus value. */
  lemma {:induction false} SingleConductorBonus(ps: seq<Passenger>, reg: Registry, conductor: string, useAbl: string, focusValue: int, n: nat, k: nat)
    requires k < n <= |ps| && ConductorHasAbility(ps, reg, conductor, useAbl)
    requires IsConductor(reg, ps[k], conductor)
    requires forall j :: 0 <= j < n && j != k ==> !IsConductor(reg, ps[j], conductor)
    ensures ConductorBonusUpTo(ps, reg, conductor, useAbl, focusValue, n) ==
      Lookup(reg, ps[k]).value.abilityTotals[useAbl] + focusValue
  {
    if n - 1 == k {
      assert forall j :: 0 <= j < |ps[..k]| ==> !IsConductor(reg, ps[..k][j], conductor);
      NoConductorPrefix(ps, reg, conductor, useAbl, focusValue, k);
    } else {
      SingleConductorBonus(ps, reg, conductor, useAbl, focusValue, n - 1, k);
    }
  }

  lemma {:induction false} NoConductorPrefix(ps: seq<Passenger>, reg: Registry, conductor: string, useAbl: string, focusValue: int, n: nat)
    requires n <= |ps| && ConductorHasAbility(ps, reg, conductor, useAbl)
    requires forall j :: 0 <= j < n ==> !IsConductor(reg, ps[j], conductor)
    ensures ConductorBonusUpTo(ps, reg, conductor, useAbl, focusValue, n) == 0
  {
    if n > 0 {
      NoConductorPrefix(ps, reg, conductor, useAbl, focusValue, n - 1);
    }
  }

  /** The whole pass: resolution, then the removal loop. `kept` is the new
      passenger list, `defenseAdd` what the defense gains, `deferred` how many
      times the actor was queued for after the registry is ready. */
  method PassengerPass(ps: seq<Passenger>, reg: Registry, conductor: string, useAbl: string, focusValue: int)
      returns (kept: seq<Passenger>, defenseAdd: int, deferred: nat)
    requires ConductorHasAbility(ps, reg, conductor, useAbl)
    ensures kept == SpliceAll(ResolvedAll(ps, reg, conductor), InvalidIndices(ps, reg))
    ensures defenseAdd == ConductorBonus(ps, reg, conductor, useAbl, focusValue)
    ensures deferred == if reg.ready then 0 else |ps|
  {
    var resolved, invalid;
    resolved, invalid, defenseAdd, deferred := ResolvePassengers(ps, reg, conductor, useAbl, focusValue);
    kept := SpliceLoop(resolved, invalid);
  }

  /** When at most one passenger is unknown the pass keeps exactly the known
      passengers, resolved; without a registry it keeps the list as stored. */
  lemma PassPrunesAtMostOneInvalid(ps: seq<Passenger>, reg: Registry, conductor: string)
    requires |InvalidIndices(ps, reg)| <= 1
    ensures reg.ready ==>
      SpliceAll(ResolvedAll(ps, reg, conductor), InvalidIndices(ps, reg)) == KeepKnown(ResolvedAll(ps, reg, conductor), reg)
    ensures !reg.ready ==> SpliceAll(ResolvedAll(ps, reg, conductor), InvalidIndices(ps, reg)) == ps
  {
    if reg.ready {
      var rs := ResolvedAll(ps, reg, conductor);
      InvalidSameAfterResolve(ps, reg, conductor, |ps|);
      SpliceFiltersAtMostOneInvalid(rs, reg);
    }
  }

  lemma {:induction false} InvalidSameAfterResolve(ps: seq<Passenger>, reg: Registry, conductor: string, n: nat)
    requires reg.ready && n <= |ps|
    ensures InvalidUpTo(ResolvedAll(ps, reg, conductor), reg, n) == InvalidUpTo(ps, reg, n)
  {
    if n > 0 {
      InvalidSameAfterResolve(ps, reg, conductor, n - 1);
      ResolveKeepsKnown(ps[n - 1], reg, conductor);
    }
  }
}
