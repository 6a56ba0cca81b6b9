/**
 ReplicaSetSettings: members saved under the keys "0", "1", ... beside three word keys.
 */
module ReplicaSetSettings {
  import opened Decimal
  import opened Variants

  datatype ReplicaSet = ReplicaSet(setName: string, cachedName: string, members: seq<string>, readPreference: int)

  const DEFAULT := ReplicaSet("", "", [], 0)

  const SET_NAME := "setNameUserEntered"
  const CACHED_NAME := "cachedSetName"
  const READ_PREFERENCE := "readPreference"

  /** The numerals of 0 .. n-1. */
  ghost function Numerals(n: nat): set<string> {
    set i: nat | i < n :: Show(i)
  }

  lemma {:induction false} NumeralsCount(n: nat)
    ensures |Numerals(n)| == n
  {
    if n == 0 {
    } else {
      hide Show;
      NumeralsCount(n - 1);
      NumeralIn(n - 1, n - 1);
      forall key ensures key in Numerals(n) <==> key in Numerals(n - 1) + {Show(n - 1)} {
        if key in Numerals(n) {
          var j: nat :| j < n && Show(j) == key;
          assert j < n - 1 || j == n - 1;
        }
      }
      assert Numerals(n) == Numerals(n - 1) + {Show(n - 1)};
    }
  }

  lemma NumeralIn(i: nat, n: nat)
    ensures Show(i) in Numerals(n) <==> i < n
  {
    if Show(i) in Numerals(n) {
      var j: nat :| j < n && Show(j) == Show(i);
      ShowInjective(i, j);
    }
  }

  /** No numeral is one of the word keys. */
  lemma NumeralsNotWords(i: nat)
    ensures Show(i) != SET_NAME && Show(i) != CACHED_NAME && Show(i) != READ_PREFERENCE
  {
    assert Show(i)[0] == ShowNat(i, "")[0];
  }

  function Members(m: map<string, Variant>, members: seq<string>, k: nat): map<string, Variant>
    requires k <= |members|
  {
    if k == 0 then m else Members(m, members, k - 1)[Show(k - 1) := Text(members[k - 1])]
  }

  /** The map toVariant builds. */
  function Saved(r: ReplicaSet): map<string, Variant> {
    Members(map[SET_NAME := Text(r.setName), CACHED_NAME := Text(r.cachedName)], r.members, |r.members|)
      [READ_PREFERENCE := Number(r.readPreference)]
  }

  /** The longest run of keys "0", "1", ... in a map, with their values. */
  ghost predicate MaximalRun(m: map<string, Variant>, members: seq<string>) {
    && (forall i :: 0 <= i < |members| ==> Show(i) in m && members[i] == ToText(m[Show(i)]))
    && Show(|members|) !in m
  }

  lemma MaximalRunUnique(m: map<string, Variant>, a: seq<string>, b: seq<string>)
    requires MaximalRun(m, a) && MaximalRun(m, b)
    ensures a == b
  {
    if |a| != |b| {
      assert false;
    }
  }

  /** A map with a run of k numeral keys has at least k keys: the load loop ends. */
  lemma RunFits(m: map<string, Variant>, k: nat)
    requires forall i :: 0 <= i < k ==> Show(i) in m
    ensures k <= |m|
  {
    NumeralsCount(k);
    assert Numerals(k) <= m.Keys;
    CardinalityMonotone(Numerals(k), m.Keys);
  }

  lemma CardinalityMonotone<T>(a: set<T>, b: set<T>)
    requires a <= b
    ensures |a| <= |b|
  {
    assert b == a + (b - a);
  }

  /** Extends a run as far as it goes, as the load loop does. */
  function Extend(m: map<string, Variant>, run: seq<string>): (r: seq<string>)
    requires forall i :: 0 <= i < |run| ==> Show(i) in m && run[i] == ToText(m[Show(i)])
    ensures MaximalRun(m, r)
    decreases |m| - |run|
  {
    if Show(|run|) !in m then run
    else
      RunFits(m, |run| + 1);
      Extend(m, run + [ToText(m[Show(|run|)])])
  }

  function Loaded(m: map<string, Variant>): (r: ReplicaSet)
    ensures LoadedAs(m, r)
  {
    ReplicaSet(ToText(At(m, SET_NAME)), ToText(At(m, CACHED_NAME)), Extend(m, []), ToNumber(At(m, READ_PREFERENCE)))
  }

  /** What a load makes of a map, given the members it found. */
  ghost predicate LoadedAs(m: map<string, Variant>, r: ReplicaSet) {
    && r.setName == ToText(At(m, SET_NAME)) && r.cachedName == ToText(At(m, CACHED_NAME))
    && MaximalRun(m, r.members) && r.readPreference == ToNumber(At(m, READ_PREFERENCE))
  }

  class Settings {
    var setNameUserEntered: string
    var cachedSetName: string
    var members: seq<string>
    var readPreference: int

    function Value(): ReplicaSet
      reads this
    {
      ReplicaSet(setNameUserEntered, cachedSetName, members, readPreference)
    }

    constructor ()
      ensures Value() == DEFAULT
    {
      setNameUserEntered, cachedSetName, members, readPreference := "", "", [], 0;
    }

    method ToVariant() returns (m: map<string, Variant>)
      ensures m == Saved(Value())
    {
      m := map[SET_NAME := Text(setNameUserEntered), CACHED_NAME := Text(cachedSetName)];
      ghost var m0 := m;
      var idx := 0;
      while idx < |members|
        invariant 0 <= idx <= |members|
        invariant m == Members(m0, members, idx)
      {
        m := m[Show(idx) := Text(members[idx])];
        idx := idx + 1;
      }
      m := m[READ_PREFERENCE := Number(readPreference)];
    }

    /** Terminates on every map, since numerals are different keys. */
    method FromVariant(m: map<string, Variant>)
      modifies this
      ensures LoadedAs(m, Value()) && Value() == Loaded(m)
    {
      setNameUserEntered := ToText(At(m, SET_NAME));
      cachedSetName := ToText(At(m, CACHED_NAME));
      var vec := [];
      var idx := 0;
      while true
        invariant idx == |vec|
        invariant setNameUserEntered == ToText(At(m, SET_NAME)) && cachedSetName == ToText(At(m, CACHED_NAME))
        invariant forall i :: 0 <= i < |vec| ==> Show(i) in m && vec[i] == ToText(m[Show(i)])
        decreases |m| - idx
      {
        if Show(idx) !in m {
          break;
        }
        RunFits(m, idx + 1);
        vec := vec + [ToText(m[Show(idx)])];
        idx := idx + 1;
      }
      MaximalRunUnique(m, vec, Extend(m, []));
      members := vec;
      readPreference := ToNumber(At(m, READ_PREFERENCE));
    }
  }

  lemma {:induction false} MembersAt(m: map<string, Variant>, members: seq<string>, k: nat, key: string)
    requires k <= |members|
    ensures key in Members(m, members, k) <==> key in m || key in Numerals(k)
    ensures key !in Numerals(k) && key in m ==> Members(m, members, k)[key] == m[key]
    ensures forall i: nat :: i < k && key == Show(i) ==>
              key in Members(m, members, k) && Members(m, members, k)[key] == Text(members[i])
  {
    if k == 0 {
    } else {
      MembersAt(m, members, k - 1, key);
      forall i: nat | i < k && key == Show(i) && i != k - 1 ensures key != Show(k - 1) {
        if Show(i) == Show(k - 1) {
          ShowInjective(i, k - 1);
        }
      }
      if key == Show(k - 1) {
        NumeralIn(k - 1, k);
        forall i: nat | i < k && key == Show(i) ensures i == k - 1 {
          ShowInjective(i, k - 1);
        }
      }
      assert key in Numerals(k) <==> key in Numerals(k - 1) || key == Show(k - 1);
    }
  }

  /** The keys under which settings are saved. */
  lemma SavedEntries(r: ReplicaSet)
    ensures
      var m := Saved(r);
      && At(m, "setNameUserEntered") == Text(r.setName) && At(m, "cachedSetName") == Text(r.cachedName)
      && At(m, "readPreference") == Number(r.readPreference)
      && (forall i: nat :: i < |r.members| ==> At(m, Show(i)) == Text(r.members[i]))
      && forall key :: key in m ==>
           key in {"setNameUserEntered", "cachedSetName", "readPreference"} || key in Numerals(|r.members|)
  {
    hide Show;
    var base := map[SET_NAME := Text(r.setName), CACHED_NAME := Text(r.cachedName)];
    forall i: nat | i < |r.members| ensures At(Saved(r), Show(i)) == Text(r.members[i]) {
      NumeralsNotWords(i);
      MembersAt(base, r.members, |r.members|, Show(i));
    }
    forall key ensures key in base ==> key !in Numerals(|r.members|) && At(Saved(r), key) == base[key]
               ensures key in Saved(r) ==> key in base || key == READ_PREFERENCE || key in Numerals(|r.members|)
    {
      MembersAt(base, r.members, |r.members|, key);
      if key in base && key in Numerals(|r.members|) {
        var j: nat :| j < |r.members| && Show(j) == key;
        NumeralsNotWords(j);
        assert false;
      }
    }
    assert SET_NAME in base && CACHED_NAME in base;
  }

  /** Settings with any number of members survive saving and loading: what was saved is
      the one thing a load of it can give. */
  lemma SaveThenLoad(r: ReplicaSet, loaded: ReplicaSet)
    ensures LoadedAs(Saved(r), loaded) <==> loaded == r
  {
    var base := map[SET_NAME := Text(r.setName), CACHED_NAME := Text(r.cachedName)];
    var n := |r.members|;
    var m := Saved(r);
    forall i: nat ensures Show(i) in m <==> i < n
                  ensures i < n ==> m[Show(i)] == Text(r.members[i])
    {
      NumeralsNotWords(i);
      MembersAt(base, r.members, n, Show(i));
      NumeralIn(i, n);
    }
    forall key | key in base ensures key in m && m[key] == base[key] {
      MembersAt(base, r.members, n, key);
      if key in Numerals(n) {
        var j: nat :| j < n && Show(j) == key;
        NumeralsNotWords(j);
      }
    }
    assert MaximalRun(m, r.members);
    if MaximalRun(m, loaded.members) {
      MaximalRunUnique(m, r.members, loaded.members);
    }
  }
}
