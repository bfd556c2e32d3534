/** Python's `OrderedDict` with string keys, as a value: the keys in insertion
    order and the map from key to value.  Every table of the parameter engine
    (names to defaults, names to docs, the caller's keyword arguments) is one. */
module OrderedDicts {
  import opened Wrappers

  /** No key occurs twice. */
  predicate Distinct(s: seq<string>) {
    forall i, j :: 0 <= i < j < |s| ==> s[i] != s[j]
  }

  datatype ODict<V> = ODict(keys: seq<string>, vals: map<string, V>) {

    /** The key sequence lists each key of the map exactly once. */
    ghost predicate Valid() {
      Distinct(keys) && forall k :: k in vals <==> k in keys
    }

    function Get(k: string): Option<V> {
      if k in vals then Some(vals[k]) else None
    }

    /** `d[k] = v`: an existing key keeps its position, a new key goes last. */
    function SetItem(k: string, v: V): (r: ODict<V>)
      requires Valid()
      ensures r.Valid()
      ensures r.keys == if k in keys then keys else keys + [k]
    {
      if k in vals then ODict(keys, vals[k := v]) else ODict(keys + [k], vals[k := v])
    }

    /** `del d[k]` when present, nothing otherwise; the other keys keep their order. */
    function Remove(k: string): (r: ODict<V>)
      requires Valid()
      ensures r.Valid()
      ensures r.keys == Filter(keys, [k])
    {
      ODict(Filter(keys, [k]), vals - {k})
    }

    /** `list(d.items())`. */
    function Items(): seq<(string, V)>
      requires Valid()
    {
      ItemsOf(keys, vals)
    }
  }

  function Empty<V>(): (r: ODict<V>)
    ensures r.Valid() && r.keys == []
  {
    ODict([], map[])
  }

  /** The pairs `(k, m[k])` for the keys `ks`, in order. */
  function ItemsOf<V>(ks: seq<string>, m: map<string, V>): (r: seq<(string, V)>)
    requires forall k :: k in ks ==> k in m
    ensures |r| == |ks|
  {
    seq(|ks|, i requires 0 <= i < |ks| => (ks[i], m[ks[i]]))
  }

  /** The values `m[k]` for the keys `ks`, in order. */
  function Column<V>(ks: seq<string>, m: map<string, V>): (r: seq<V>)
    requires forall k :: k in ks ==> k in m
    ensures |r| == |ks|
  {
    seq(|ks|, i requires 0 <= i < |ks| => m[ks[i]])
  }

  /** The keys of a sequence of pairs, in order. */
  function Names<V>(items: seq<(string, V)>): (r: seq<string>)
    ensures |r| == |items|
  {
    seq(|items|, i requires 0 <= i < |items| => items[i].0)
  }

  /** The elements of `ks` that are not in `drop`, in their order in `ks`. */
  function Filter(ks: seq<string>, drop: seq<string>): (r: seq<string>)
    ensures forall x :: x in r <==> x in ks && x !in drop
    ensures Distinct(ks) ==> Distinct(r)
  {
    if ks == [] then []
    else if ks[0] in drop then Filter(ks[1..], drop)
    else [ks[0]] + Filter(ks[1..], drop)
  }

  /** Scanning `s` left to right, the elements met for the first time and not
      already in `seen`: the order in which new keys reach an ordered dict. */
  function FirstSeen(s: seq<string>, seen: seq<string>): seq<string>
  {
    if s == [] then []
    else if s[0] in seen then FirstSeen(s[1..], seen)
    else [s[0]] + FirstSeen(s[1..], seen + [s[0]])
  }

  /** Assigning the pairs of `items` one after the other, as a loop of `d[k] = v`. */
  function SetAll<V>(t: ODict<V>, items: seq<(string, V)>): (r: ODict<V>)
    requires t.Valid()
    ensures r.Valid()
    decreases |items|
  {
    if items == [] then t
    else SetAll(t, items[..|items| - 1]).SetItem(items[|items| - 1].0, items[|items| - 1].1)
  }

  /** `t.update(other)`: assigns the entries of `other` in `other`'s order. */
  function Update<V>(t: ODict<V>, other: ODict<V>): (r: ODict<V>)
    requires t.Valid() && other.Valid()
    ensures r.Valid()
  {
    SetAll(t, other.Items())
  }

  /** The value of the last pair with key `k`, if any. */
  function LastFor<V>(items: seq<(string, V)>, k: string): Option<V>
  {
    if items == [] then None
    else if items[|items| - 1].0 == k then Some(items[|items| - 1].1)
    else LastFor(items[..|items| - 1], k)
  }

  // ---------------------------------------------------------------------------
  // Lookups after a sequence of assignments

  /** After `d[k] = v`, `k` holds `v` and every other key what it held. */
  lemma SetItemGet<V>(d: ODict<V>, k: string, v: V, j: string)
    requires d.Valid()
    ensures d.SetItem(k, v).Get(j) == if j == k then Some(v) else d.Get(j)
  {
  }

  /** After removing `k`, `k` is absent and every other key holds what it held. */
  lemma RemoveGet<V>(d: ODict<V>, k: string, j: string)
    requires d.Valid()
    ensures d.Remove(k).Get(j) == if j == k then None else d.Get(j)
  {
  }

  /** After assigning `items`, a key holds the value of its last assignment, and
      a key never assigned keeps its old value (or stays absent). */
  lemma {:induction false} SetAllGet<V>(t: ODict<V>, items: seq<(string, V)>, k: string)
    requires t.Valid()
    ensures SetAll(t, items).Get(k) == if LastFor(items, k).Some? then LastFor(items, k) else t.Get(k)
    decreases |items|
  {
    if items != [] {
      SetAllGet(t, items[..|items| - 1], k);
      SetItemGet(SetAll(t, items[..|items| - 1]), items[|items| - 1].0, items[|items| - 1].1, k);
    }
  }

  /** The last assignment of `k` in `a + b` is the one in `b`, if `b` has one. */
  lemma {:induction false} LastForAppend<V>(a: seq<(string, V)>, b: seq<(string, V)>, k: string)
    ensures LastFor(a + b, k) == if LastFor(b, k).Some? then LastFor(b, k) else LastFor(a, k)
    decreases |b|
  {
    if b == [] {
      assert a + b == a;
    } else {
      assert (a + b)[..|a + b| - 1] == a + b[..|b| - 1];
      LastForAppend(a, b[..|b| - 1], k);
    }
  }

  /** The items of a table assign each of its keys its own value. */
  lemma {:induction false} LastForItemsOf<V>(ks: seq<string>, m: map<string, V>, k: string)
    requires forall x :: x in ks ==> x in m
    ensures LastFor(ItemsOf(ks, m), k) == if k in ks then Some(m[k]) else None
    decreases |ks|
  {
    if ks != [] {
      var p := ks[..|ks| - 1];
      assert ItemsOf(ks, m)[..|ks| - 1] == ItemsOf(p, m);
      assert ks == p + [ks[|ks| - 1]];
      LastForItemsOf(p, m, k);
    }
  }

  /** Assigning one more pair is one more `d[k] = v`. */
  lemma SetAllSnoc<V>(t: ODict<V>, items: seq<(string, V)>, x: (string, V))
    requires t.Valid()
    ensures SetAll(t, items + [x]) == SetAll(t, items).SetItem(x.0, x.1)
  {
    assert (items + [x])[..|items|] == items;
  }

  /** Two dicts that agree on every lookup have the same map. */
  lemma GetExtensional<V>(a: ODict<V>, b: ODict<V>)
    requires forall k :: a.Get(k) == b.Get(k)
    ensures a.vals == b.vals
  {
    forall k ensures k in a.vals <==> k in b.vals {
      assert a.Get(k) == b.Get(k);
    }
    forall k | k in a.vals ensures a.vals[k] == b.vals[k] {
      assert a.Get(k) == b.Get(k);
    }
  }

  /** Assigning `a + b` is assigning `a`, then `b`. */
  lemma {:induction false} SetAllAppend<V>(t: ODict<V>, a: seq<(string, V)>, b: seq<(string, V)>)
    requires t.Valid()
    ensures SetAll(t, a + b) == SetAll(SetAll(t, a), b)
    decreases |b|
  {
    if b == [] {
      assert a + b == a;
    } else {
      assert (a + b)[..|a + b| - 1] == a + b[..|b| - 1];
      SetAllAppend(t, a, b[..|b| - 1]);
    }
  }

  /** `update` overwrites the keys `other` has and leaves the rest alone. */
  lemma UpdateGet<V>(t: ODict<V>, other: ODict<V>, k: string)
    requires t.Valid() && other.Valid()
    ensures Update(t, other).Get(k) == if k in other.vals then other.Get(k) else t.Get(k)
  {
    SetAllGet(t, other.Items(), k);
    LastForItemsOf(other.keys, other.vals, k);
  }

  // ---------------------------------------------------------------------------
  // Key order after a sequence of assignments

  /** Scanning one more element appends it when it is new. */
  lemma {:induction false} FirstSeenSnoc(s: seq<string>, x: string, seen: seq<string>)
    ensures FirstSeen(s + [x], seen)
         == FirstSeen(s, seen) + (if x in seen || x in FirstSeen(s, seen) then [] else [x])
    decreases |s|
  {
    if s == [] {
      assert s + [x] == [x];
    } else {
      assert (s + [x])[1..] == s[1..] + [x];
      if s[0] in seen {
        FirstSeenSnoc(s[1..], x, seen);
      } else {
        FirstSeenSnoc(s[1..], x, seen + [s[0]]);
      }
    }
  }

  /** What is seen after scanning `s` is what was seen before, plus `s`. */
  lemma {:induction false} FirstSeenMembers(s: seq<string>, seen: seq<string>, x: string)
    ensures x in seen + FirstSeen(s, seen) <==> x in seen || x in s
    decreases |s|
  {
    if s != [] {
      assert s == [s[0]] + s[1..];
      if s[0] in seen {
        FirstSeenMembers(s[1..], seen, x);
      } else {
        FirstSeenMembers(s[1..], seen + [s[0]], x);
      }
    }
  }

  /** Over distinct names, the first-seen scan is a plain filter. */
  lemma {:induction false} FirstSeenDistinct(s: seq<string>, seen: seq<string>)
    requires Distinct(s)
    ensures FirstSeen(s, seen) == Filter(s, seen)
    decreases |s|
  {
    if s != [] {
      if s[0] in seen {
        FirstSeenDistinct(s[1..], seen);
      } else {
        FirstSeenDistinct(s[1..], seen + [s[0]]);
        FilterIgnoresAbsent(s[1..], seen, s[0]);
      }
    }
  }

  /** Dropping nothing keeps every key. */
  lemma {:induction false} FilterNothing(ks: seq<string>)
    ensures Filter(ks, []) == ks
    decreases |ks|
  {
    if ks != [] {
      FilterNothing(ks[1..]);
    }
  }

  /** Dropping keys none of which occur keeps every key. */
  lemma {:induction false} FilterKeepsAll(ks: seq<string>, drop: seq<string>)
    requires forall k :: k in ks ==> k !in drop
    ensures Filter(ks, drop) == ks
    decreases |ks|
  {
    if ks != [] {
      FilterKeepsAll(ks[1..], drop);
    }
  }

  /** Dropping a key that does not occur changes nothing. */
  lemma {:induction false} FilterIgnoresAbsent(ks: seq<string>, drop: seq<string>, x: string)
    requires x !in ks
    ensures Filter(ks, drop + [x]) == Filter(ks, drop)
    decreases |ks|
  {
    if ks != [] {
      FilterIgnoresAbsent(ks[1..], drop, x);
    }
  }

  /** Filtering twice is filtering once by both lists. */
  lemma {:induction false} FilterTwice(ks: seq<string>, drop: seq<string>, n: string)
    ensures Filter(Filter(ks, drop), [n]) == Filter(ks, drop + [n])
    decreases |ks|
  {
    if ks != [] {
      FilterTwice(ks[1..], drop, n);
      if ks[0] !in drop {
        assert [ks[0]] + Filter(ks[1..], drop) == Filter(ks, drop);
      }
    }
  }

  /** After assigning `items`, the old keys come first, in their old order,
      followed by the new keys in the order they were first assigned. */
  lemma {:induction false} SetAllKeys<V>(t: ODict<V>, items: seq<(string, V)>)
    requires t.Valid()
    ensures SetAll(t, items).keys == t.keys + FirstSeen(Names(items), t.keys)
    decreases |items|
  {
    if items == [] {
      assert Names(items) == [];
    } else {
      var p := items[..|items| - 1];
      var x := items[|items| - 1].0;
      assert Names(items) == Names(p) + [x];
      SetAllKeys(t, p);
      FirstSeenSnoc(Names(p), x, t.keys);
      FirstSeenMembers(Names(p), t.keys, x);
      var q := SetAll(t, p);
      assert x in q.vals <==> x in q.keys;
    }
  }

  /** `update` keeps the old keys in place and appends the keys of `other` that
      are new, in `other`'s order. */
  lemma UpdateKeys<V>(t: ODict<V>, other: ODict<V>)
    requires t.Valid() && other.Valid()
    ensures Update(t, other).keys == t.keys + Filter(other.keys, t.keys)
  {
    SetAllKeys(t, other.Items());
    assert Names(other.Items()) == other.keys;
    FirstSeenDistinct(other.keys, t.keys);
  }
}
