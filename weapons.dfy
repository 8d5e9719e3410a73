/** `sortWeapon` (lines 487-516): the weapons stored on an actor, sorted by
    lower-cased name and re-keyed `"0000"`, `"0001"`, ... in sorted order. */
module Weapons {
  import opened Common
  import opened Text

  /** A stored weapon; only its name matters to the sort, the rest of its
      data travels with it unchanged. */
  datatype Weapon = Weapon(name: string, data: string)

  /** The comparator's "less than": lower-cased names in string order. */
  predicate NameBefore(a: Weapon, b: Weapon) {
    LexLess(Lower(a.name), Lower(b.name))
  }

  /** No entry comes after one it sorts before. */
  predicate SortedByName(ws: seq<Weapon>) {
    forall i, j :: 0 <= i < j < |ws| ==> !NameBefore(ws[j], ws[i])
  }

  /** Places `w` before the first entry it sorts before, so after every
      entry with the same name: equal names keep their order. */
  function InsertByName(w: Weapon, ws: seq<Weapon>): (r: seq<Weapon>)
    ensures multiset(r) == multiset(ws) + multiset{w}
    ensures |r| == |ws| + 1
  {
    if ws == [] then [w]
    else if NameBefore(w, ws[0]) then [w] + ws
    else
      assert ws == [ws[0]] + ws[1..];
      [ws[0]] + InsertByName(w, ws[1..])
  }

  /** The stable sort the comparator defines: each entry is inserted, in
      enumeration order, after the entries already placed that it does not
      sort before. */
  function SortByName(ws: seq<Weapon>): (r: seq<Weapon>)
    ensures multiset(r) == multiset(ws)
    ensures |r| == |ws|
  {
    if ws == [] then []
    else
      assert ws == ws[..|ws| - 1] + [ws[|ws| - 1]];
      InsertByName(ws[|ws| - 1], SortByName(ws[..|ws| - 1]))
  }

  lemma {:induction false} InsertKeepsSorted(w: Weapon, ws: seq<Weapon>)
    requires SortedByName(ws)
    ensures SortedByName(InsertByName(w, ws))
    decreases |ws|
  {
    if ws != [] && !NameBefore(w, ws[0]) {
      InsertKeepsSorted(w, ws[1..]);
      var r := InsertByName(w, ws);
      var rest := InsertByName(w, ws[1..]);
      assert r == [ws[0]] + rest;
      forall j | 0 < j < |r|
        ensures !NameBefore(r[j], r[0])
      {
        assert r[j] in multiset(rest);
        assert r[j] in multiset(ws[1..]) + multiset{w};
        if r[j] != w {
          assert r[j] in ws[1..];
          var k :| 0 <= k < |ws[1..]| && ws[1..][k] == r[j];
          assert ws[k + 1] == r[j];
        }
      }
    } else if ws != [] {
      var r := InsertByName(w, ws);
      forall i, j | 0 <= i < j < |r|
        ensures !NameBefore(r[j], r[i])
      {
        if i == 0 && NameBefore(r[j], w) {
          assert r[j] == ws[j - 1];
          assert !NameBefore(ws[j - 1], ws[0]) by {
            if j - 1 > 0 {
              assert !NameBefore(ws[j - 1], ws[0]);
            } else {
              LexLessIrreflexive(Lower(ws[0].name));
            }
          }
          LexLessTransitive(Lower(r[j].name), Lower(w.name), Lower(ws[0].name));
        }
      }
    }
  }

  /** The sort orders by name and keeps every weapon exactly once. */
  lemma {:induction false} SortByNameSorted(ws: seq<Weapon>)
    ensures SortedByName(SortByName(ws))
    ensures multiset(SortByName(ws)) == multiset(ws)
    decreases |ws|
  {
    if ws != [] {
      SortByNameSorted(ws[..|ws| - 1]);
      InsertKeepsSorted(ws[|ws| - 1], SortByName(ws[..|ws| - 1]));
    }
  }

  /** The key of position `w`: its decimal digits, left-padded with zeros
      to four characters. */
  function PaddedKey(w: nat): string {
    var digits := NatToString(w);
    if |digits| < 4 then Zeros(4 - |digits|) + digits else digits
  }

  /** In a sorted list an earlier entry's lower-cased name is the later one's
      or sorts before it: the order is ascending, not merely free of
      inversions. */
  lemma SortedAscending(ws: seq<Weapon>, i: nat, j: nat)
    requires SortedByName(ws) && i < j < |ws|
    ensures Lower(ws[i].name) == Lower(ws[j].name) || NameBefore(ws[i], ws[j])
  {
    if Lower(ws[i].name) != Lower(ws[j].name) {
      LexLessTotal(Lower(ws[i].name), Lower(ws[j].name));
    }
  }

  /** A key reads back as its position, so distinct positions get distinct keys. */
  lemma PaddedKeyParses(w: nat)
    ensures |PaddedKey(w)| >= 4
    ensures IsDigits(PaddedKey(w)) && ParseNat(PaddedKey(w)) == w
  {
    var digits := NatToString(w);
    ParseNatToString(w);
    if |digits| < 4 {
      ParseNatLeadingZeros(4 - |digits|, digits);
    }
  }

  lemma PaddedKeyInjective(v: nat, w: nat)
    requires PaddedKey(v) == PaddedKey(w)
    ensures v == w
  {
    PaddedKeyParses(v);
    PaddedKeyParses(w);
  }

  /** Prepends zeros until `s` has `n` characters. */
  function PadLeft(s: string, n: nat): string
    decreases n - |s|
  {
    if |s| >= n then s else PadLeft("0" + s, n)
  }

  /** Padding prepends exactly the missing zeros. */
  lemma {:induction false} PadLeftZeros(s: string, n: nat)
    ensures PadLeft(s, n) == if |s| < n then Zeros(n - |s|) + s else s
    decreases n - |s|
  {
    if |s| < n {
      PadLeftZeros("0" + s, n);
      if |s| + 1 < n {
        ZerosSnoc(n - |s| - 1);
        assert Zeros(n - |s| - 1) + ("0" + s) == (Zeros(n - |s| - 1) + "0") + s;
      }
    }
  }

  /** The padding loop of lines 510-513. */
  method PadKey(w: nat) returns (key: string)
    ensures key == PaddedKey(w)
  {
    var digits := NatToString(w);
    key := digits;
    while |key| < 4
      invariant PadLeft(key, 4) == PadLeft(digits, 4)
      decreases 4 - |key|
    {
      key := "0" + key;
    }
    PadLeftZeros(digits, 4);
  }

  /** The re-keyed object after the first `n` sorted entries: sorted
      position `w` stored under `PaddedKey(w)`. */
  function RekeyedUpTo(sorted: seq<Weapon>, n: nat): map<string, Weapon>
    requires n <= |sorted|
  {
    if n == 0 then map[] else RekeyedUpTo(sorted, n - 1)[PaddedKey(n - 1) := sorted[n - 1]]
  }

  function Rekeyed(sorted: seq<Weapon>): map<string, Weapon> {
    RekeyedUpTo(sorted, |sorted|)
  }

  /** Position `w` has its entry under its key. */
  lemma {:induction false} RekeyedAt(sorted: seq<Weapon>, n: nat, w: nat)
    requires w < n <= |sorted|
    ensures PaddedKey(w) in RekeyedUpTo(sorted, n)
    ensures RekeyedUpTo(sorted, n)[PaddedKey(w)] == sorted[w]
  {
    var prev := RekeyedUpTo(sorted, n - 1);
    assert RekeyedUpTo(sorted, n) == prev[PaddedKey(n - 1) := sorted[n - 1]];
    if w < n - 1 {
      RekeyedAt(sorted, n - 1, w);
      assert PaddedKey(w) != PaddedKey(n - 1) by {
        if PaddedKey(w) == PaddedKey(n - 1) {
          PaddedKeyInjective(w, n - 1);
        }
      }
    }
  }

  /** The keys of the first `n` positions. */
  function KeysUpTo(n: nat): set<string> {
    if n == 0 then {} else KeysUpTo(n - 1) + {PaddedKey(n - 1)}
  }

  /** The re-keyed object has exactly the keys of its positions. */
  lemma {:induction false} RekeyedKeys(sorted: seq<Weapon>, n: nat)
    requires n <= |sorted|
    ensures RekeyedUpTo(sorted, n).Keys == KeysUpTo(n)
  {
    if n > 0 {
      RekeyedKeys(sorted, n - 1);
    }
  }

  /** A later position's key is not among the keys of earlier ones. */
  lemma {:induction false} LaterKeyIsNew(m: nat, n: nat)
    requires n <= m
    ensures PaddedKey(m) !in KeysUpTo(n)
  {
    if n > 0 {
      LaterKeyIsNew(m, n - 1);
      if PaddedKey(m) == PaddedKey(n - 1) {
        PaddedKeyInjective(m, n - 1);
      }
    }
  }

  /** One key per position: the re-keyed object has as many entries as
      there are weapons. */
  lemma {:induction false} KeysUpToSize(n: nat)
    ensures |KeysUpTo(n)| == n
  {
    if n > 0 {
      KeysUpToSize(n - 1);
      LaterKeyIsNew(n - 1, n - 1);
    }
  }

  /** `sortWeapon(weapon)`: nothing stored gives an empty object; otherwise
      the values, in enumeration order, are sorted by name and re-keyed. */
  method SortWeapon(weapon: Option<seq<Weapon>>) returns (r: map<string, Weapon>)
    ensures weapon.None? ==> r == map[]
    ensures weapon.Some? ==> r == Rekeyed(SortByName(weapon.value))
  {
    if weapon.None? {
      return map[];
    }
    var sorted := SortByName(weapon.value);
    r := map[];
    for w := 0 to |sorted|
      invariant r == RekeyedUpTo(sorted, w)
    {
      var key := PadKey(w);
      r := r[key := sorted[w]];
    }
  }
}
