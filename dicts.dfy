/**
  Python dictionaries with string keys, modelled as their items in insertion
  order. Lookup, assignment (`d[k] = v`), `d.update(e)` / `{**d, **e}` and the
  key filters the adapter applies are defined here once, with the laws that
  relate them.
 */
module Dicts {
  import opened Wrappers

  /** The items of a dict, in insertion order. */
  type Dict<V> = seq<(string, V)>

  function Init<V>(d: Dict<V>): Dict<V>
    requires d != []
  {
    d[..|d| - 1]
  }

  function Last<V>(d: Dict<V>): (string, V)
    requires d != []
  {
    d[|d| - 1]
  }

  /** The set of keys of `d`. */
  function Keys<V>(d: Dict<V>): set<string>
    decreases |d|
  {
    if d == [] then {} else Keys(Init(d)) + {Last(d).0}
  }

  /** `d.get(k)`: the value stored under `k` (the latest one, should `k` repeat). */
  function Get<V>(d: Dict<V>, k: string): Option<V>
    decreases |d|
  {
    if d == [] then None
    else if Last(d).0 == k then Some(Last(d).1)
    else Get(Init(d), k)
  }

  /** `d.get(k, default)`. */
  function GetOr<V>(d: Dict<V>, k: string, default: V): V
  {
    match Get(d, k)
    case Some(v) => v
    case None => default
  }

  /** Every item with key `k` gets the value `v`, in its place. */
  function Replace<V>(d: Dict<V>, k: string, v: V): Dict<V>
    decreases |d|
  {
    if d == [] then []
    else Replace(Init(d), k, v) + [if Last(d).0 == k then (k, v) else Last(d)]
  }

  /** `d[k] = v`: an existing key keeps its position, a new key goes last. */
  function Set<V>(d: Dict<V>, k: string, v: V): Dict<V>
  {
    if k in Keys(d) then Replace(d, k, v) else d + [(k, v)]
  }

  /** `d.update(e)`, equally `{**d, **e}`: the items of `e` assigned in order. */
  function Update<V>(d: Dict<V>, e: Dict<V>): Dict<V>
    decreases |e|
  {
    if e == [] then d else Set(Update(d, Init(e)), Last(e).0, Last(e).1)
  }

  /** The items of `d` whose key is in `ks`, in order. */
  function Restrict<V>(d: Dict<V>, ks: set<string>): Dict<V>
    decreases |d|
  {
    if d == [] then []
    else Restrict(Init(d), ks) + (if Last(d).0 in ks then [Last(d)] else [])
  }

  /** The items of `d` whose key is not in `ks`, in order. */
  function Without<V>(d: Dict<V>, ks: set<string>): Dict<V>
    decreases |d|
  {
    if d == [] then []
    else Without(Init(d), ks) + (if Last(d).0 !in ks then [Last(d)] else [])
  }

  /** The keys of a real Python dict never repeat. */
  ghost predicate UniqueKeys<V>(d: Dict<V>)
  {
    forall i, j | 0 <= i < j < |d| :: d[i].0 != d[j].0
  }

  lemma InitOfAppend<V>(d: Dict<V>, x: (string, V))
    ensures Init(d + [x]) == d && Last(d + [x]) == x
  {
    assert (d + [x])[..|d|] == d;
  }

  lemma {:induction false} KeysAreStored<V>(d: Dict<V>)
    ensures forall k :: k in Keys(d) <==> Get(d, k).Some?
    ensures forall i | 0 <= i < |d| :: d[i].0 in Keys(d)
    decreases |d|
  {
    if d != [] {
      KeysAreStored(Init(d));
      assert forall i | 0 <= i < |d| - 1 :: d[i] == Init(d)[i];
    }
  }

  lemma {:induction false} ReplaceLaws<V>(d: Dict<V>, k: string, v: V)
    ensures |Replace(d, k, v)| == |d|
    ensures forall i | 0 <= i < |d| :: Replace(d, k, v)[i].0 == d[i].0
    ensures Keys(Replace(d, k, v)) == Keys(d)
    ensures forall k' :: Get(Replace(d, k, v), k') ==
                         if k' == k && k in Keys(d) then Some(v) else Get(d, k')
    decreases |d|
  {
    if d != [] {
      ReplaceLaws(Init(d), k, v);
      var r := Replace(d, k, v);
      InitOfAppend(Replace(Init(d), k, v), if Last(d).0 == k then (k, v) else Last(d));
      assert Init(r) == Replace(Init(d), k, v);
      KeysAreStored(Init(d));
    }
  }

  /** Assignment stores `v` under `k` and changes no other key's value. */
  lemma GetSet<V>(d: Dict<V>, k: string, v: V)
    ensures forall k' :: Get(Set(d, k, v), k') == if k' == k then Some(v) else Get(d, k')
  {
    KeysAreStored(d);
    if k in Keys(d) {
      ReplaceLaws(d, k, v);
    } else {
      InitOfAppend(d, (k, v));
    }
  }

  /** Assignment adds exactly `k` to the keys, and keeps every existing key in its position. */
  lemma SetKeepsOrder<V>(d: Dict<V>, k: string, v: V)
    ensures Keys(Set(d, k, v)) == Keys(d) + {k}
    ensures |Set(d, k, v)| == if k in Keys(d) then |d| else |d| + 1
    ensures forall i | 0 <= i < |d| :: Set(d, k, v)[i].0 == d[i].0
    ensures k !in Keys(d) ==> Set(d, k, v)[|d|] == (k, v)
  {
    if k in Keys(d) {
      ReplaceLaws(d, k, v);
    } else {
      InitOfAppend(d, (k, v));
    }
  }

  lemma UpdateSnoc<V>(d: Dict<V>, e: Dict<V>, x: (string, V))
    ensures Update(d, e + [x]) == Set(Update(d, e), x.0, x.1)
  {
    InitOfAppend(e, x);
  }

  lemma RestrictSnoc<V>(d: Dict<V>, x: (string, V), ks: set<string>)
    ensures Restrict(d + [x], ks) == Restrict(d, ks) + (if x.0 in ks then [x] else [])
  {
    InitOfAppend(d, x);
  }

  lemma WithoutSnoc<V>(d: Dict<V>, x: (string, V), ks: set<string>)
    ensures Without(d + [x], ks) == Without(d, ks) + (if x.0 !in ks then [x] else [])
  {
    InitOfAppend(d, x);
  }

  /** After `d.update(e)`, a key of `e` has its value in `e`; any other key keeps its value in `d`. */
  lemma {:induction false} GetUpdate<V>(d: Dict<V>, e: Dict<V>)
    ensures forall k :: Get(Update(d, e), k) == if k in Keys(e) then Get(e, k) else Get(d, k)
    ensures Keys(Update(d, e)) == Keys(d) + Keys(e)
    decreases |e|
  {
    if e != [] {
      GetUpdate(d, Init(e));
      GetSet(Update(d, Init(e)), Last(e).0, Last(e).1);
      SetKeepsOrder(Update(d, Init(e)), Last(e).0, Last(e).1);
    }
  }

  /** `d.update(e)` keeps the items of `d` first, each key in its old position. */
  lemma {:induction false} UpdateKeepsOrder<V>(d: Dict<V>, e: Dict<V>)
    ensures |Update(d, e)| >= |d|
    ensures forall i | 0 <= i < |d| :: Update(d, e)[i].0 == d[i].0
    decreases |e|
  {
    if e != [] {
      UpdateKeepsOrder(d, Init(e));
      SetKeepsOrder(Update(d, Init(e)), Last(e).0, Last(e).1);
    }
  }

  /** Restricting keeps exactly the keys in `ks`, with their values. */
  lemma {:induction false} GetRestrict<V>(d: Dict<V>, ks: set<string>)
    ensures forall k :: Get(Restrict(d, ks), k) == if k in ks then Get(d, k) else None
    ensures Keys(Restrict(d, ks)) == Keys(d) * ks
    decreases |d|
  {
    if d != [] {
      GetRestrict(Init(d), ks);
      if Last(d).0 in ks {
        InitOfAppend(Restrict(Init(d), ks), Last(d));
      } else {
        assert Restrict(d, ks) == Restrict(Init(d), ks);
      }
    }
  }

  /** Removing keys drops exactly the keys in `ks` and leaves every other value unchanged. */
  lemma {:induction false} GetWithout<V>(d: Dict<V>, ks: set<string>)
    ensures forall k :: Get(Without(d, ks), k) == if k in ks then None else Get(d, k)
    ensures Keys(Without(d, ks)) == Keys(d) - ks
    decreases |d|
  {
    if d != [] {
      GetWithout(Init(d), ks);
      if Last(d).0 !in ks {
        InitOfAppend(Without(Init(d), ks), Last(d));
      } else {
        assert Without(d, ks) == Without(Init(d), ks);
      }
    }
  }

  /** Removing keys keeps a dict a dict. */
  lemma {:induction false} WithoutUnique<V>(d: Dict<V>, ks: set<string>)
    requires UniqueKeys(d)
    ensures UniqueKeys(Without(d, ks))
    ensures forall i | 0 <= i < |Without(d, ks)| :: Without(d, ks)[i] in d
    decreases |d|
  {
    if d != [] {
      assert UniqueKeys(Init(d));
      WithoutUnique(Init(d), ks);
      var w := Without(Init(d), ks);
      if Last(d).0 !in ks {
        forall i | 0 <= i < |w| ensures w[i].0 != Last(d).0 {
          var j :| 0 <= j < |Init(d)| && Init(d)[j] == w[i];
          assert d[j] == w[i];
        }
      }
    }
  }

  /** Assigning the items of a dict one by one into an empty dict rebuilds it unchanged. */
  lemma {:induction false} UpdateEmptyRebuilds<V>(e: Dict<V>)
    requires UniqueKeys(e)
    ensures Update([], e) == e
    decreases |e|
  {
    if e != [] {
      assert UniqueKeys(Init(e));
      UpdateEmptyRebuilds(Init(e));
      KeysAreStored(Init(e));
      assert Last(e).0 !in Keys(Init(e)) by {
        if Last(e).0 in Keys(Init(e)) {
          KeysInRange(Init(e), Last(e).0);
        }
      }
      assert Init(e) + [Last(e)] == e;
    }
  }

  lemma {:induction false} KeysInRange<V>(d: Dict<V>, k: string)
    requires k in Keys(d)
    ensures exists i :: 0 <= i < |d| && d[i].0 == k
    decreases |d|
  {
    if Last(d).0 != k {
      KeysInRange(Init(d), k);
      var i :| 0 <= i < |Init(d)| && Init(d)[i].0 == k;
      assert d[i].0 == k;
    }
  }

  /** The dict literal `{a: va, b: vb}`. */
  lemma PairLaws<V>(a: string, va: V, b: string, vb: V)
    requires a != b
    ensures Keys([(a, va), (b, vb)]) == {a, b}
    ensures forall k :: Get([(a, va), (b, vb)], k) == if k == a then Some(va) else if k == b then Some(vb) else None
    ensures forall x :: Set([(a, va), (b, vb)], a, x) == [(a, x), (b, vb)]
    ensures forall y :: Set([(a, va), (b, vb)], b, y) == [(a, va), (b, y)]
  {
    var d := [(a, va), (b, vb)];
    assert Init(d) == [(a, va)] && Last(d) == (b, vb);
    assert Init(Init(d)) == [] && Last(Init(d)) == (a, va);
    assert Keys(Init(d)) == Keys(Init(Init(d))) + {a} == {a};
    forall k ensures Get(Init(d), k) == if k == a then Some(va) else None {
      assert Get(Init(Init(d)), k) == None;
    }
    forall x ensures Replace(d, a, x) == [(a, x), (b, vb)] {
      assert Replace(Init(d), a, x) == Replace([], a, x) + [(a, x)];
    }
    forall y ensures Replace(d, b, y) == [(a, va), (b, y)] {
      assert Replace(Init(d), b, y) == Replace([], b, y) + [(a, va)];
    }
  }

  /** A dict object whose items are updated in place, as a Python `dict` passed by reference. */
  class MutableDict<V> {
    var items: Dict<V>

    constructor (items: Dict<V>)
      ensures this.items == items
    {
      this.items := items;
    }

    /** `self[k] = v`. */
    method Put(k: string, v: V)
      modifies this
      ensures items == Set(old(items), k, v)
    {
      items := Set(items, k, v);
    }
  }
}
