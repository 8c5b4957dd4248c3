// The LRU cache around asynchronous functions: an ordered dictionary whose oldest entry is dropped
// when it outgrows its limit, and the wrapper that looks results up in it.

module Lru {
  import opened Base

  // ---- the ordered dictionary ----------------------------------------------

  /** Entries in dictionary order, oldest first. */
  type Entries<K, V> = seq<(K, V)>

  function Keys<K, V>(es: Entries<K, V>): (ks: seq<K>)
    ensures |ks| == |es| && forall i :: 0 <= i < |es| ==> ks[i] == es[i].0
  {
    if es == [] then [] else [es[0].0] + Keys(es[1..])
  }

  function Lookup<K(==), V>(es: Entries<K, V>, k: K): (v: Option<V>)
    ensures v.Some? <==> k in Keys(es)
  {
    if es == [] then None else if es[0].0 == k then Some(es[0].1) else Lookup(es[1..], k)
  }

  /** Overwrites the value at a key's place, or appends a new entry. */
  function Assign<K(==), V>(es: Entries<K, V>, k: K, v: V): Entries<K, V> {
    if es == [] then [(k, v)]
    else if es[0].0 == k then [(k, v)] + es[1..]
    else [es[0]] + Assign(es[1..], k, v)
  }

  function Without<K(==), V>(es: Entries<K, V>, k: K): Entries<K, V> {
    if es == [] then [] else if es[0].0 == k then es[1..] else [es[0]] + Without(es[1..], k)
  }

  function MoveToEnd<K(==), V>(es: Entries<K, V>, k: K): Entries<K, V> {
    match Lookup(es, k)
    case Some(v) => Without(es, k) + [(k, v)]
    case None => es
  }

  /** `None` and 0 both mean that there is no limit. */
  predicate Over(n: nat, maxsize: Option<nat>) {
    maxsize.Some? && maxsize.value != 0 && n > maxsize.value
  }

  /** `LRU.__setitem__`. */
  function Store<K(==), V>(es: Entries<K, V>, maxsize: Option<nat>, k: K, v: V): Entries<K, V> {
    var stored := Assign(es, k, v);
    if Over(|stored|, maxsize) then stored[1..] else stored
  }

  class LRU<K(==), V> {
    const maxsize: Option<nat>
    var entries: Entries<K, V>

    constructor (maxsize: Option<nat>)
      ensures this.maxsize == maxsize && entries == []
    {
      this.maxsize, entries := maxsize, [];
    }

    /** `__getitem__`; no value is a KeyError. */
    method GetItem(k: K) returns (v: Option<V>)
      modifies this
      ensures v == Lookup(old(entries), k)
      ensures entries == MoveToEnd(old(entries), k)
    {
      v := Lookup(entries, k);
      if v.Some? {
        entries := Without(entries, k) + [(k, v.value)];
      }
    }

    /** `__setitem__`. */
    method SetItem(k: K, v: V)
      modifies this
      ensures entries == Store(old(entries), maxsize, k, v)
    {
      entries := Assign(entries, k, v);
      if Over(|entries|, maxsize) {
        entries := entries[1..];
      }
    }

    method Clear()
      modifies this
      ensures entries == []
    {
      entries := [];
    }
  }

  // ---- the wrapper ---------------------------------------------------------

  /** A call of the wrapped function, with what the function itself would do (no value: it raises),
      or a clearing of the cache. */
  datatype Event<K, V> =
    | Call(key: K, useCache: bool, outcome: Option<V>)
    | Clear

  predicate IsHit<K(==), V>(es: Entries<K, V>, key: K, useCache: bool) {
    key in Keys(es) && useCache
  }

  function Step<K(==), V>(es: Entries<K, V>, maxsize: Option<nat>, e: Event<K, V>): Entries<K, V> {
    match e
    case Clear => []
    case Call(k, useCache, outcome) =>
      if IsHit(es, k, useCache) then MoveToEnd(es, k)
      else if outcome.None? then es
      else MoveToEnd(Store(es, maxsize, k, outcome.value), k)
  }

  /** What the caller of the wrapper gets. */
  function Answer<K(==), V>(es: Entries<K, V>, k: K, useCache: bool, outcome: Option<V>): Option<V> {
    if IsHit(es, k, useCache) then Lookup(es, k) else outcome
  }

  class AsyncLRU<K(==), V> {
    const lru: LRU<K, V>

    constructor (maxsize: Option<nat>)
      ensures fresh(lru) && lru.maxsize == maxsize && lru.entries == []
    {
      lru := new LRU(maxsize);
    }

    /** `cache_clear`. */
    method CacheClear()
      modifies lru
      ensures lru.entries == []
    {
      lru.Clear();
    }

    /** The wrapper around `func`; `computed` tells whether the function ran. */
    method Wrapper(func: K -> Option<V>, key: K, useCache: bool) returns (r: Option<V>, computed: bool)
      requires NoDup(Keys(lru.entries)) && !Over(|lru.entries|, lru.maxsize)
      modifies lru
      ensures r == Answer(old(lru.entries), key, useCache, func(key))
      ensures computed == !IsHit(old(lru.entries), key, useCache)
      ensures lru.entries == Step(old(lru.entries), lru.maxsize, Call(key, useCache, func(key)))
      ensures NoDup(Keys(lru.entries)) && !Over(|lru.entries|, lru.maxsize)
    {
      StepKeys(lru.entries, lru.maxsize, Call(key, useCache, func(key)));
      if key in Keys(lru.entries) && useCache {
        computed := false;
        r := lru.GetItem(key);
      } else {
        computed := true;
        var value := func(key);
        if value.None? { return None, computed; }
        StoreFound(lru.entries, lru.maxsize, key, value.value);
        lru.SetItem(key, value.value);
        r := lru.GetItem(key);
      }
    }
  }

  // ---- keys after one step -------------------------------------------------

  function Remove<K(==)>(ks: seq<K>, k: K): seq<K> {
    if ks == [] then [] else if ks[0] == k then ks[1..] else [ks[0]] + Remove(ks[1..], k)
  }

  /** The `m` last keys; no limit keeps them all. */
  function Latest<K>(ks: seq<K>, maxsize: Option<nat>): seq<K> {
    if Over(|ks|, maxsize) then ks[|ks| - maxsize.value..] else ks
  }

  lemma {:induction false} WithoutKeys<K, V>(es: Entries<K, V>, k: K)
    ensures Keys(Without(es, k)) == Remove(Keys(es), k)
  {
    if es != [] && es[0].0 != k {
      WithoutKeys(es[1..], k);
      assert Keys(es)[1..] == Keys(es[1..]);
    } else if es != [] {
      assert Keys(es)[1..] == Keys(es[1..]);
    }
  }

  lemma {:induction false} AssignKeys<K, V>(es: Entries<K, V>, k: K, v: V)
    ensures Keys(Assign(es, k, v)) == if k in Keys(es) then Keys(es) else Keys(es) + [k]
    ensures Lookup(Assign(es, k, v), k) == Some(v)
  {
    if es != [] && es[0].0 != k {
      AssignKeys(es[1..], k, v);
      assert k in Keys(es) <==> k in Keys(es[1..]);
    }
  }

  lemma KeysAppend<K, V>(es: Entries<K, V>, k: K, v: V)
    ensures Keys(es + [(k, v)]) == Keys(es) + [k]
  {
  }

  lemma {:induction false} RemoveAbsent<K>(ks: seq<K>, k: K)
    requires k !in ks
    ensures Remove(ks, k) == ks
  {
    if ks != [] { RemoveAbsent(ks[1..], k); }
  }

  lemma {:induction false} RemoveAppend<K>(a: seq<K>, k: K)
    requires k !in a
    ensures Remove(a + [k], k) == a
  {
    if a == [] {
      assert a + [k] == [k];
    } else {
      RemoveAppend(a[1..], k);
      assert (a + [k])[1..] == a[1..] + [k];
    }
  }

  /** What a returned call does to the keys: the key goes to the end, and the oldest is dropped. */
  function Used<K(==)>(ks: seq<K>, maxsize: Option<nat>, k: K): seq<K> {
    Latest(Remove(ks, k) + [k], maxsize)
  }

  function KeysAfter<K(==), V>(ks: seq<K>, maxsize: Option<nat>, e: Event<K, V>): seq<K> {
    match e
    case Clear => []
    case Call(k, useCache, outcome) => if Returns(ks, e) then Used(ks, maxsize, k) else ks
  }

  /** The wrapper returns a value when the key is cached and may be used, or the function succeeds. */
  predicate Returns<K(==), V>(cached: seq<K>, e: Event<K, V>)
    requires e.Call?
  {
    (e.key in cached && e.useCache) || e.outcome.Some?
  }

  lemma {:induction false} RemoveParts<K>(p: seq<K>, l: seq<K>, k: K)
    ensures k in p ==> Remove(p + l, k) == Remove(p, k) + l && |Remove(p, k)| == |p| - 1
    ensures k !in p ==> Remove(p + l, k) == p + Remove(l, k)
  {
    if p == [] {
      assert p + l == l;
    } else {
      RemoveParts(p[1..], l, k);
      assert (p + l)[1..] == p[1..] + l;
    }
  }

  lemma {:induction false} RemoveElements<K>(ks: seq<K>, k: K)
    requires NoDup(ks)
    ensures NoDup(Remove(ks, k))
    ensures forall x :: x in Remove(ks, k) <==> x in ks && x != k
    ensures |Remove(ks, k)| == if k in ks then |ks| - 1 else |ks|
  {
    if ks != [] {
      assert forall x :: x in ks <==> x == ks[0] || x in ks[1..];
      if ks[0] != k {
        RemoveElements(ks[1..], k);
        assert ks[0] !in ks[1..];
      } else {
        assert ks[0] !in ks[1..];
      }
    }
  }

  lemma UsedNoDup<K>(ks: seq<K>, maxsize: Option<nat>, k: K)
    requires NoDup(ks)
    ensures NoDup(Used(ks, maxsize, k)) && !Over(|Used(ks, maxsize, k)|, maxsize) && k in Used(ks, maxsize, k)
  {
    RemoveElements(ks, k);
    var all := Remove(ks, k) + [k];
    assert all[|all| - 1] == k;
    assert Used(ks, maxsize, k)[|Used(ks, maxsize, k)| - 1] == k;
  }

  lemma MoveToEndKeys<K, V>(es: Entries<K, V>, k: K)
    requires k in Keys(es)
    ensures Keys(MoveToEnd(es, k)) == Remove(Keys(es), k) + [k]
  {
    WithoutKeys(es, k);
    KeysAppend(Without(es, k), k, Lookup(es, k).value);
  }

  lemma StoreExisting<K, V>(es: Entries<K, V>, maxsize: Option<nat>, k: K, v: V)
    requires k in Keys(es) && !Over(|es|, maxsize)
    ensures Keys(Store(es, maxsize, k, v)) == Keys(es) && Lookup(Store(es, maxsize, k, v), k) == Some(v)
  {
    AssignKeys(es, k, v);
    assert |Assign(es, k, v)| == |Keys(Assign(es, k, v))| == |es|;
  }

  lemma {:induction false} AssignNew<K, V>(es: Entries<K, V>, k: K, v: V)
    requires k !in Keys(es)
    ensures Assign(es, k, v) == es + [(k, v)]
  {
    if es != [] {
      assert Keys(es)[0] == es[0].0;
      AssignNew(es[1..], k, v);
    }
  }

  lemma {:induction false} LookupLast<K, V>(es: Entries<K, V>, k: K, v: V)
    requires k !in Keys(es)
    ensures Lookup(es + [(k, v)], k) == Some(v)
  {
    if es == [] {
      assert es + [(k, v)] == [(k, v)];
    } else {
      assert Keys(es)[0] == es[0].0;
      LookupLast(es[1..], k, v);
      assert (es + [(k, v)])[1..] == es[1..] + [(k, v)];
    }
  }

  /** A new key is appended, and the front is dropped if that is one too many. */
  lemma StoreNew<K, V>(es: Entries<K, V>, maxsize: Option<nat>, k: K, v: V, kept: Entries<K, V>)
    requires k !in Keys(es) && !Over(|es|, maxsize)
    requires kept == if Over(|es| + 1, maxsize) then es[1..] else es
    ensures Store(es, maxsize, k, v) == kept + [(k, v)]
    ensures k !in Keys(kept) && Keys(kept) + [k] == Latest(Keys(es) + [k], maxsize)
  {
    AssignNew(es, k, v);
    if Over(|es| + 1, maxsize) {
      assert |es| > 0 && Keys(kept) == Keys(es)[1..];
      assert (es + [(k, v)])[1..] == es[1..] + [(k, v)];
      assert (Keys(es) + [k])[1..] == Keys(es)[1..] + [k];
    }
  }

  lemma StoreFound<K, V>(es: Entries<K, V>, maxsize: Option<nat>, k: K, v: V)
    requires !Over(|es|, maxsize)
    ensures Lookup(Store(es, maxsize, k, v), k) == Some(v)
  {
    if k in Keys(es) {
      StoreExisting(es, maxsize, k, v);
    } else {
      var kept := if Over(|es| + 1, maxsize) then es[1..] else es;
      StoreNew(es, maxsize, k, v, kept);
      LookupLast(kept, k, v);
    }
  }

  lemma StepNewKey<K, V>(es: Entries<K, V>, maxsize: Option<nat>, k: K, v: V)
    requires k !in Keys(es) && !Over(|es|, maxsize)
    ensures Keys(MoveToEnd(Store(es, maxsize, k, v), k)) == Used(Keys(es), maxsize, k)
  {
    var kept := if Over(|es| + 1, maxsize) then es[1..] else es;
    StoreNew(es, maxsize, k, v, kept);
    KeysAppend(kept, k, v);
    assert (Keys(kept) + [k])[|kept|] == k;
    MoveToEndKeys(kept + [(k, v)], k);
    RemoveAppend(Keys(kept), k);
    RemoveAbsent(Keys(es), k);
  }

  lemma StepOldKey<K, V>(es: Entries<K, V>, stored: Entries<K, V>, maxsize: Option<nat>, k: K)
    requires k in Keys(es) && NoDup(Keys(es)) && !Over(|es|, maxsize) && Keys(stored) == Keys(es)
    ensures Keys(MoveToEnd(stored, k)) == Used(Keys(es), maxsize, k)
  {
    RemoveElements(Keys(es), k);
    MoveToEndKeys(stored, k);
  }

  /** One step of the cache, on the keys alone: a call that returns uses its key, and a call whose
      function raises leaves the cache as it was. */
  lemma StepKeys<K, V>(es: Entries<K, V>, maxsize: Option<nat>, e: Event<K, V>)
    requires NoDup(Keys(es)) && !Over(|es|, maxsize)
    ensures Keys(Step(es, maxsize, e)) == KeysAfter(Keys(es), maxsize, e)
    ensures NoDup(Keys(Step(es, maxsize, e))) && !Over(|Step(es, maxsize, e)|, maxsize)
  {
    if e.Call? {
      var k := e.key;
      UsedNoDup(Keys(es), maxsize, k);
      if IsHit(es, k, e.useCache) {
        StepOldKey(es, es, maxsize, k);
      } else if e.outcome.Some? {
        if k in Keys(es) {
          StoreExisting(es, maxsize, k, e.outcome.value);
          StepOldKey(es, Store(es, maxsize, k, e.outcome.value), maxsize, k);
        } else {
          StepNewKey(es, maxsize, k, e.outcome.value);
        }
      }
      assert |Step(es, maxsize, e)| == |Keys(Step(es, maxsize, e))|;
    }
  }
}
