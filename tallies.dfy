/** A JavaScript `Map` keyed by strings: a dictionary that remembers the order in
    which keys were first inserted. Iteration (`forEach`) follows that order, and
    `set` on an existing key keeps the key's position. */
module Tallies {
  import opened Domain

  datatype Tally<V> = Tally(keys: seq<string>, vals: map<string, V>) {

    /** The keys are distinct and are exactly the dictionary's domain. */
    ghost predicate Valid() {
      && (forall i, j :: 0 <= i < j < |keys| ==> keys[i] != keys[j])
      && (forall k :: k in vals <==> k in keys)
    }

    /** Get-or-default, for values that are never falsy. */
    function GetOr(k: string, d: V): V {
      if k in vals then vals[k] else d
    }

    /** Insert or overwrite; a new key goes to the end of the order. */
    function Set(k: string, v: V): (t: Tally<V>)
      ensures t.vals == vals[k := v]
      ensures Valid() ==> t.Valid()
      ensures k in vals ==> t.keys == keys
      ensures k !in vals ==> t.keys == keys + [k]
    {
      if k in vals then Tally(keys, vals[k := v]) else Tally(keys + [k], vals[k := v])
    }
  }

  function Empty<V>(): (t: Tally<V>)
    ensures t.Valid() && t.keys == []
  {
    Tally([], map[])
  }

  /** The number a key contributes, 0 when absent. */
  function CountOf<V>(vals: map<string, V>, f: V -> nat, k: string): nat {
    if k in vals then f(vals[k]) else 0
  }

  /** Sum of `f` over the values reached by `keys`. */
  function SumOver<V>(keys: seq<string>, vals: map<string, V>, f: V -> nat): nat {
    if keys == [] then 0 else CountOf(vals, f, keys[0]) + SumOver(keys[1..], vals, f)
  }

  /** Sum of `f` over all entries of a tally. */
  function Total<V>(t: Tally<V>, f: V -> nat): nat {
    SumOver(t.keys, t.vals, f)
  }

  lemma {:induction false} SumOverAppend<V>(keys: seq<string>, k: string, vals: map<string, V>, f: V -> nat)
    ensures SumOver(keys + [k], vals, f) == SumOver(keys, vals, f) + CountOf(vals, f, k)
  {
    if keys != [] {
      assert (keys + [k])[1..] == keys[1..] + [k];
      SumOverAppend(keys[1..], k, vals, f);
    }
  }

  lemma {:induction false} SumOverUntouched<V>(keys: seq<string>, vals: map<string, V>, k: string, v: V, f: V -> nat)
    requires k !in keys
    ensures SumOver(keys, vals[k := v], f) == SumOver(keys, vals, f)
  {
    if keys != [] {
      assert keys[0] != k;
      SumOverUntouched(keys[1..], vals, k, v, f);
    }
  }

  lemma {:induction false} SumOverReplace<V>(keys: seq<string>, vals: map<string, V>, k: string, v: V, f: V -> nat)
    requires forall i, j :: 0 <= i < j < |keys| ==> keys[i] != keys[j]
    requires k in keys
    ensures SumOver(keys, vals[k := v], f) + CountOf(vals, f, k) == SumOver(keys, vals, f) + f(v)
  {
    if keys[0] == k {
      assert k !in keys[1..] by {
        forall i | 0 <= i < |keys[1..]| ensures keys[1..][i] != k {
          assert keys[1..][i] == keys[i + 1];
        }
      }
      SumOverUntouched(keys[1..], vals, k, v, f);
    } else {
      SumOverReplace(keys[1..], vals, k, v, f);
    }
  }

  /** Setting a key changes the total by the difference between the new value and
      the old one (0 for a new key). */
  lemma TotalSet<V>(t: Tally<V>, k: string, v: V, f: V -> nat)
    requires t.Valid()
    ensures Total(t.Set(k, v), f) + CountOf(t.vals, f, k) == Total(t, f) + f(v)
  {
    if k in t.vals {
      SumOverReplace(t.keys, t.vals, k, v, f);
    } else {
      SumOverAppend(t.keys, k, t.vals[k := v], f);
      SumOverUntouched(t.keys, t.vals, k, v, f);
    }
  }

  /** The `forEach` argmax of the source: scan the keys in order, keeping the first key
      whose count is strictly greater than every count before it. */
  function Leader<V>(keys: seq<string>, vals: map<string, V>, f: V -> nat, best: string, max: nat): string {
    if keys == [] then best
    else if CountOf(vals, f, keys[0]) > max then Leader(keys[1..], vals, f, keys[0], CountOf(vals, f, keys[0]))
    else Leader(keys[1..], vals, f, best, max)
  }

  /** The most frequent key, the first inserted among equals, or `default` when no
      count is positive. */
  function Favourite<V>(t: Tally<V>, f: V -> nat, default: string): string {
    Leader(t.keys, t.vals, f, default, 0)
  }

  /** Position `i` holds a maximal count and every earlier position a strictly smaller one. */
  ghost predicate FirstMaxAt<V>(keys: seq<string>, vals: map<string, V>, f: V -> nat, i: int) {
    && 0 <= i < |keys|
    && (forall j :: 0 <= j < |keys| ==> CountOf(vals, f, keys[j]) <= CountOf(vals, f, keys[i]))
    && (forall j :: 0 <= j < i ==> CountOf(vals, f, keys[j]) < CountOf(vals, f, keys[i]))
  }

  lemma {:induction false} LeaderIsFirstMax<V>(keys: seq<string>, vals: map<string, V>, f: V -> nat, best: string, max: nat)
    ensures (forall j :: 0 <= j < |keys| ==> CountOf(vals, f, keys[j]) <= max) ==> Leader(keys, vals, f, best, max) == best
    ensures (exists j :: 0 <= j < |keys| && CountOf(vals, f, keys[j]) > max) ==>
      exists i :: FirstMaxAt(keys, vals, f, i) && keys[i] == Leader(keys, vals, f, best, max)
                  && CountOf(vals, f, keys[i]) > max
  {
    if keys != [] {
      var c := CountOf(vals, f, keys[0]);
      var rest := keys[1..];
      var nextBest, nextMax := if c > max then keys[0] else best, if c > max then c else max;
      LeaderIsFirstMax(rest, vals, f, nextBest, nextMax);
      var r := Leader(keys, vals, f, best, max);
      assert r == Leader(rest, vals, f, nextBest, nextMax);
      if forall j :: 0 <= j < |rest| ==> CountOf(vals, f, rest[j]) <= nextMax {
        if c > max {
          assert r == keys[0];
          forall j | 0 <= j < |keys| ensures CountOf(vals, f, keys[j]) <= c {
            if j > 0 { assert keys[j] == rest[j - 1]; }
          }
          assert FirstMaxAt(keys, vals, f, 0);
        } else {
          forall j | 0 <= j < |keys| ensures CountOf(vals, f, keys[j]) <= max {
            if j > 0 { assert keys[j] == rest[j - 1]; }
          }
        }
      } else {
        var i' :| FirstMaxAt(rest, vals, f, i') && rest[i'] == r && CountOf(vals, f, rest[i']) > nextMax;
        forall j | 0 <= j < |keys| ensures CountOf(vals, f, keys[j]) <= CountOf(vals, f, keys[i' + 1]) {
          if j > 0 { assert keys[j] == rest[j - 1]; }
        }
        forall j | 0 <= j < i' + 1 ensures CountOf(vals, f, keys[j]) < CountOf(vals, f, keys[i' + 1]) {
          if j > 0 { assert keys[j] == rest[j - 1]; }
        }
        assert FirstMaxAt(keys, vals, f, i' + 1);
      }
    }
  }

  /** `Favourite` is the default exactly when no count is positive; otherwise it is a key
      of maximal count, and no key inserted before it has that count. */
  lemma FavouriteIsFirstMax<V>(t: Tally<V>, f: V -> nat, default: string)
    ensures (forall j :: 0 <= j < |t.keys| ==> CountOf(t.vals, f, t.keys[j]) == 0) ==> Favourite(t, f, default) == default
    ensures (exists j :: 0 <= j < |t.keys| && CountOf(t.vals, f, t.keys[j]) > 0) ==>
      exists i :: FirstMaxAt(t.keys, t.vals, f, i) && t.keys[i] == Favourite(t, f, default)
                  && CountOf(t.vals, f, t.keys[i]) > 0
  {
    LeaderIsFirstMax(t.keys, t.vals, f, default, 0);
  }

  /** When every stored count is positive, the favourite is the default for an empty
      tally, and otherwise a first-inserted key of maximal count. That key may itself
      equal the default; when the default is not a key, the favourite is the default
      exactly for an empty tally. */
  lemma FavouriteOfPositive<V>(t: Tally<V>, f: V -> nat, default: string)
    requires t.Valid()
    requires forall k :: k in t.vals ==> f(t.vals[k]) > 0
    ensures t.keys == [] ==> Favourite(t, f, default) == default
    ensures t.keys != [] ==>
      exists i :: FirstMaxAt(t.keys, t.vals, f, i) && t.keys[i] == Favourite(t, f, default)
    ensures default !in t.vals ==> (Favourite(t, f, default) == default <==> t.keys == [])
  {
    FavouriteIsFirstMax(t, f, default);
    if t.keys != [] {
      assert t.keys[0] in t.vals;
      assert CountOf(t.vals, f, t.keys[0]) > 0;
      var i :| FirstMaxAt(t.keys, t.vals, f, i) && t.keys[i] == Favourite(t, f, default);
      assert t.keys[i] in t.vals;
    }
  }

  /** The running-maximum loop of the source: start from count 0 and the default, and
      take a key whenever its count strictly exceeds the best so far. */
  method FindFavourite<V>(t: Tally<V>, f: V -> nat, default: string) returns (best: string)
    ensures best == Favourite(t, f, default)
  {
    var maxCount: nat := 0;
    best := default;
    var i := 0;
    while i < |t.keys|
      invariant 0 <= i <= |t.keys|
      invariant Leader(t.keys[i..], t.vals, f, best, maxCount) == Favourite(t, f, default)
    {
      var k := t.keys[i];
      assert t.keys[i..][0] == k && t.keys[i..][1..] == t.keys[i + 1..];
      var c := CountOf(t.vals, f, k);
      if c > maxCount {
        maxCount := c;
        best := k;
      }
      i := i + 1;
    }
  }
}
