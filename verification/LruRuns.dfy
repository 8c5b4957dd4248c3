// What the LRU cache promises over whole runs of calls: which keys it holds, in which order, and
// which values.

module LruRuns {
  import opened Base
  import opened Lru

  // ---- whole runs ----------------------------------------------------------

  function Run<K(==), V>(maxsize: Option<nat>, h: seq<Event<K, V>>): Entries<K, V> {
    if h == [] then [] else Step(Run(maxsize, h[..|h| - 1]), maxsize, h[|h| - 1])
  }

  /** The distinct keys of a list of uses, each at its last use. */
  function ByLastUse<K(==)>(uses: seq<K>): seq<K> {
    if uses == [] then []
    else if uses[0] in uses[1..] then ByLastUse(uses[1..])
    else [uses[0]] + ByLastUse(uses[1..])
  }

  /** The keys that a history leaves to be found: the `maxsize` most recently used ones. */
  function Recent<K(==)>(uses: seq<K>, maxsize: Option<nat>): seq<K> {
    Latest(ByLastUse(uses), maxsize)
  }

  /** The keys of the calls that returned a value since the last clearing. Nothing is said here of a
      dictionary: whether a key is still cached is read off the uses themselves. */
  function Uses<K(==), V>(maxsize: Option<nat>, h: seq<Event<K, V>>): seq<K> {
    if h == [] then []
    else
      var before, last := Uses(maxsize, h[..|h| - 1]), h[|h| - 1];
      if last.Clear? then []
      else if Returns(Recent(before, maxsize), last) then before + [last.key]
      else before
  }

  lemma {:induction false} ByLastUseElements<K>(uses: seq<K>)
    ensures NoDup(ByLastUse(uses))
    ensures forall k :: k in ByLastUse(uses) <==> k in uses
  {
    if uses != [] {
      ByLastUseElements(uses[1..]);
      assert forall k :: k in uses <==> k == uses[0] || k in uses[1..];
    }
  }

  lemma {:induction false} ByLastUseAppend<K>(uses: seq<K>, k: K)
    ensures ByLastUse(uses + [k]) == Remove(ByLastUse(uses), k) + [k]
  {
    if uses == [] {
      assert uses + [k] == [k];
    } else {
      var a, rest := uses[0], uses[1..];
      assert (uses + [k])[1..] == rest + [k];
      assert a in rest + [k] <==> a in rest || a == k;
      ByLastUseAppend(rest, k);
      ByLastUseElements(rest);
      if a == k && a !in rest { RemoveAbsent(ByLastUse(rest), k); }
    }
  }

  lemma LatestUsedKept<K>(p: seq<K>, l: seq<K>, k: K)
    requires NoDup(p + l) && k in l
    ensures Remove(p + l, k) + [k] == p + (Remove(l, k) + [k]) && |Remove(l, k)| == |l| - 1
  {
    RemoveParts(p, l, k);
    forall i | 0 <= i < |p| ensures p[i] != k {
      var j :| 0 <= j < |l| && l[j] == k;
      assert (p + l)[i] != (p + l)[|p| + j];
    }
    assert NoDup(l) by { assert forall i :: 0 <= i < |l| ==> l[i] == (p + l)[|p| + i]; }
    RemoveElements(l, k);
    assert p + Remove(l, k) + [k] == p + (Remove(l, k) + [k]);
  }

  lemma LatestUsedNew<K>(p: seq<K>, l: seq<K>, k: K, all: seq<K>)
    requires k !in l && l != [] && all == Remove(p + l, k) + [k]
    ensures |all| >= |l| && all[|all| - |l|..] == (l + [k])[1..]
  {
    RemoveParts(p, l, k);
    RemoveAbsent(l, k);
    if k in p {
      assert all == Remove(p, k) + l + [k];
    } else {
      assert all == p + l + [k];
    }
  }

  lemma LatestUsedCut<K>(p: seq<K>, l: seq<K>, n: nat, k: K, all: seq<K>)
    requires NoDup(p + l) && p != [] && |l| == n > 0 && all == Remove(p + l, k) + [k]
    ensures Used(l, Some(n), k) == Latest(all, Some(n))
  {
    if k in l {
      LatestUsedKept(p, l, k);
    } else {
      LatestUsedNew(p, l, k, all);
      RemoveAbsent(l, k);
    }
  }

  /** Using a key of a list that was already cut to the limit is using it in the whole list. */
  lemma LatestUsed<K>(ks: seq<K>, maxsize: Option<nat>, k: K)
    requires NoDup(ks)
    ensures Used(Latest(ks, maxsize), maxsize, k) == Latest(Remove(ks, k) + [k], maxsize)
  {
    if Over(|ks|, maxsize) {
      var cut := |ks| - maxsize.value;
      assert ks == ks[..cut] + ks[cut..];
      LatestUsedCut(ks[..cut], ks[cut..], maxsize.value, k, Remove(ks, k) + [k]);
    }
  }

  /** After any sequential run the cached keys, in order, are the distinct keys of the history by
      last use, cut to the `maxsize` latest. */
  lemma {:induction false} RunKeys<K, V>(maxsize: Option<nat>, h: seq<Event<K, V>>)
    ensures Keys(Run(maxsize, h)) == Recent(Uses(maxsize, h), maxsize)
    ensures NoDup(Keys(Run(maxsize, h))) && !Over(|Run(maxsize, h)|, maxsize)
    decreases |h|
  {
    if h != [] {
      var before, e := h[..|h| - 1], h[|h| - 1];
      RunKeys(maxsize, before);
      StepKeys(Run(maxsize, before), maxsize, e);
      var uses := Uses(maxsize, before);
      if e.Call? {
        ByLastUseElements(uses);
        ByLastUseAppend(uses, e.key);
        LatestUsed(ByLastUse(uses), maxsize, e.key);
      }
    }
  }

  /** A call after any run uses the cache, instead of running the function, exactly if it may and its
      key is among the `maxsize` most recently used. */
  lemma RecomputesExactly<K, V>(maxsize: Option<nat>, h: seq<Event<K, V>>, k: K, useCache: bool)
    ensures IsHit(Run(maxsize, h), k, useCache) <==> useCache && k in Recent(Uses(maxsize, h), maxsize)
  {
    RunKeys(maxsize, h);
  }

  /** A key is among the most recently used exactly if fewer than `maxsize` different keys were used
      after its last use. */
  lemma {:induction false} RecentExactly<K>(a: seq<K>, k: K, b: seq<K>, others: set<K>, maxsize: Option<nat>)
    requires k !in b && others == (set x | x in b)
    ensures maxsize == None || maxsize == Some(0) ==> k in Recent(a + [k] + b, maxsize)
    ensures maxsize.Some? && maxsize.value > 0 ==> (k in Recent(a + [k] + b, maxsize) <==> |others| < maxsize.value)
  {
    var whole := ByLastUse(a + [k] + b);
    ByLastUseElements(b);
    ByLastUseElements(a + [k] + b);
    NoDupLength(ByLastUse(b), others);
    var p := EndsWithLast(a, k, b);
    assert whole == p + [k] + ByLastUse(b);
    assert whole[|p|] == k;
    assert |whole| == |p| + 1 + |others|;
    if !Over(|others| + 1, maxsize) && Over(|whole|, maxsize) {
      var cut := |whole| - maxsize.value;
      assert whole[cut..][|p| - cut] == k;
    }
    if Over(|others| + 1, maxsize) {
      var cut := |whole| - maxsize.value;
      assert cut > |p|;
    }
  }

  /** How many entries there are after any run: one for each different key used, up to the limit. */
  lemma SizeExactly<K, V>(maxsize: Option<nat>, h: seq<Event<K, V>>, used: set<K>)
    requires used == (set x | x in Uses(maxsize, h))
    ensures maxsize == None || maxsize == Some(0) ==> |Run(maxsize, h)| == |used|
    ensures maxsize.Some? && maxsize.value > 0 ==>
      |Run(maxsize, h)| == if |used| < maxsize.value then |used| else maxsize.value
  {
    var uses := Uses(maxsize, h);
    RunKeys(maxsize, h);
    ByLastUseElements(uses);
    NoDupLength(ByLastUse(uses), used);
    assert |Run(maxsize, h)| == |Recent(uses, maxsize)|;
  }

  /** The part of the recency order before a key's last use. */
  lemma {:induction false} EndsWithLast<K>(a: seq<K>, k: K, b: seq<K>) returns (p: seq<K>)
    requires k !in b
    ensures ByLastUse(a + [k] + b) == p + [k] + ByLastUse(b)
    decreases |a|
  {
    if a == [] {
      assert a + [k] + b == [k] + b;
      return [];
    }
    var rest := EndsWithLast(a[1..], k, b);
    assert (a + [k] + b)[1..] == a[1..] + [k] + b;
    if a[0] in a[1..] + [k] + b {
      return rest;
    }
    assert [a[0]] + (rest + [k] + ByLastUse(b)) == [a[0]] + rest + [k] + ByLastUse(b);
    return [a[0]] + rest;
  }

  // ---- the values ----------------------------------------------------------

  lemma {:induction false} LookupWithout<K, V>(es: Entries<K, V>, k: K, x: K)
    requires x != k
    ensures Lookup(Without(es, k), x) == Lookup(es, x)
  {
    if es != [] && es[0].0 != k { LookupWithout(es[1..], k, x); }
  }

  lemma {:induction false} LookupAppend<K, V>(es: Entries<K, V>, k: K, v: V, x: K)
    ensures Lookup(es + [(k, v)], x) == if x in Keys(es) then Lookup(es, x) else if x == k then Some(v) else None
  {
    if es == [] {
      assert es + [(k, v)] == [(k, v)];
    } else {
      LookupAppend(es[1..], k, v, x);
      assert (es + [(k, v)])[1..] == es[1..] + [(k, v)];
      assert x in Keys(es) <==> x == es[0].0 || x in Keys(es[1..]);
    }
  }

  lemma LookupMoved<K, V>(es: Entries<K, V>, k: K, x: K)
    requires NoDup(Keys(es))
    ensures Lookup(MoveToEnd(es, k), x) == Lookup(es, x)
  {
    if k in Keys(es) {
      WithoutKeys(es, k);
      RemoveElements(Keys(es), k);
      LookupAppend(Without(es, k), k, Lookup(es, k).value, x);
      if x != k { LookupWithout(es, k, x); }
    }
  }

  lemma {:induction false} LookupAssigned<K, V>(es: Entries<K, V>, k: K, v: V, x: K)
    requires x != k
    ensures Lookup(Assign(es, k, v), x) == Lookup(es, x)
  {
    if es != [] && es[0].0 != k { LookupAssigned(es[1..], k, v, x); }
  }

  lemma LookupKept<K, V>(es: Entries<K, V>, kept: Entries<K, V>, k: K, v: V, x: K)
    requires NoDup(Keys(es)) && (kept == es || (es != [] && kept == es[1..]))
    requires x != k && x in Keys(kept + [(k, v)])
    ensures Lookup(kept + [(k, v)], x) == Lookup(es, x)
  {
    KeysAppend(kept, k, v);
    assert x in Keys(kept);
    LookupAppend(kept, k, v, x);
  }

  lemma StoreShape<K, V>(es: Entries<K, V>, maxsize: Option<nat>, k: K, v: V) returns (kept: Entries<K, V>)
    requires !Over(|es|, maxsize)
    ensures k in Keys(es) ==> Store(es, maxsize, k, v) == Assign(es, k, v)
    ensures k !in Keys(es) ==> Store(es, maxsize, k, v) == kept + [(k, v)]
    ensures kept == es || (es != [] && kept == es[1..])
  {
    kept := if Over(|es| + 1, maxsize) then es[1..] else es;
    if k in Keys(es) {
      AssignKeys(es, k, v);
      assert |Assign(es, k, v)| == |Keys(Assign(es, k, v))| == |es|;
    } else {
      StoreNew(es, maxsize, k, v, kept);
    }
  }

  /** Storing changes no other key's value, except that the oldest key may go. */
  lemma ShapeLaws<K, V>(es: Entries<K, V>, kept: Entries<K, V>, stored: Entries<K, V>, k: K, v: V, x: K)
    requires NoDup(Keys(es)) && (kept == es || (es != [] && kept == es[1..]))
    requires stored == if k in Keys(es) then Assign(es, k, v) else kept + [(k, v)]
    ensures NoDup(Keys(stored))
    ensures x != k && x in Keys(stored) ==> Lookup(stored, x) == Lookup(es, x)
  {
    if k in Keys(es) {
      AssignKeys(es, k, v);
      if x != k { LookupAssigned(es, k, v, x); }
    } else {
      if x != k && x in Keys(stored) { LookupKept(es, kept, k, v, x); }
    }
  }

  lemma StoreLaws<K, V>(es: Entries<K, V>, maxsize: Option<nat>, k: K, v: V, x: K, stored: Entries<K, V>)
    requires NoDup(Keys(es)) && !Over(|es|, maxsize) && stored == Store(es, maxsize, k, v)
    ensures NoDup(Keys(stored)) && Lookup(stored, k) == Some(v)
    ensures x != k && x in Keys(stored) ==> Lookup(stored, x) == Lookup(es, x)
  {
    var kept := StoreShape(es, maxsize, k, v);
    StoreFound(es, maxsize, k, v);
    ShapeLaws(es, kept, stored, k, v, x);
  }

  /** The value that the last successful computation for `k` gave, if there was one since the last
      clearing. */
  function LastComputed<K(==), V>(maxsize: Option<nat>, h: seq<Event<K, V>>, k: K): Option<V> {
    if h == [] then None
    else
      var before, e := h[..|h| - 1], h[|h| - 1];
      if e.Clear? then None
      else if e.key == k && e.outcome.Some? && !(e.useCache && k in Recent(Uses(maxsize, before), maxsize)) then
        e.outcome
      else LastComputed(maxsize, before, k)
  }

  lemma LookupComputed<K, V>(es: Entries<K, V>, stored: Entries<K, V>, k: K, v: V, x: K)
    requires NoDup(Keys(stored)) && Lookup(stored, k) == Some(v)
    requires x != k && x in Keys(stored) ==> Lookup(stored, x) == Lookup(es, x)
    requires x in Keys(MoveToEnd(stored, k))
    ensures Lookup(MoveToEnd(stored, k), x) == if x == k then Some(v) else Lookup(es, x)
  {
    LookupMoved(stored, k, x);
  }

  lemma StepLookup<K, V>(es: Entries<K, V>, maxsize: Option<nat>, e: Event<K, V>, x: K, after: Entries<K, V>)
    requires NoDup(Keys(es)) && !Over(|es|, maxsize)
    requires e.Call? && after == Step(es, maxsize, e) && x in Keys(after)
    ensures Lookup(after, x)
         == if e.key == x && e.outcome.Some? && !IsHit(es, x, e.useCache) then e.outcome else Lookup(es, x)
  {
    if IsHit(es, e.key, e.useCache) {
      LookupMoved(es, e.key, x);
    } else if e.outcome.Some? {
      var stored := Store(es, maxsize, e.key, e.outcome.value);
      StoreLaws(es, maxsize, e.key, e.outcome.value, x, stored);
      LookupComputed(es, stored, e.key, e.outcome.value, x);
    }
  }

  /** After any run a cached key holds the value of the last successful computation for it. */
  lemma {:induction false} RunValues<K, V>(maxsize: Option<nat>, h: seq<Event<K, V>>, k: K)
    ensures Lookup(Run(maxsize, h), k)
         == if k in Recent(Uses(maxsize, h), maxsize) then LastComputed(maxsize, h, k) else None
    decreases |h|
  {
    RunKeys(maxsize, h);
    if h != [] {
      var before, e := h[..|h| - 1], h[|h| - 1];
      RunValues(maxsize, before, k);
      RunKeys(maxsize, before);
      if e.Call? && k in Keys(Run(maxsize, h)) {
        StepLookup(Run(maxsize, before), maxsize, e, k, Run(maxsize, h));
      }
    }
  }

  /** Every call in the history did what `f` does. */
  ghost predicate Deterministic<K, V>(f: K -> Option<V>, h: seq<Event<K, V>>) {
    forall i :: 0 <= i < |h| && h[i].Call? ==> h[i].outcome == f(h[i].key)
  }

  lemma {:induction false} ComputedByFunction<K, V>(f: K -> Option<V>, maxsize: Option<nat>, h: seq<Event<K, V>>, k: K)
    requires Deterministic(f, h) && LastComputed(maxsize, h, k).Some?
    ensures LastComputed(maxsize, h, k) == f(k)
    decreases |h|
  {
    var before, e := h[..|h| - 1], h[|h| - 1];
    if e.Call? && LastComputed(maxsize, before, k).Some? { ComputedByFunction(f, maxsize, before, k); }
  }

  /** For a deterministic function the wrapper is transparent: after any run, with or without the
      cache, it answers, or raises, as the function itself would. */
  lemma WrapperIsTransparent<K, V>(f: K -> Option<V>, maxsize: Option<nat>, h: seq<Event<K, V>>, k: K, useCache: bool)
    requires Deterministic(f, h)
    ensures Answer(Run(maxsize, h), k, useCache, f(k)) == f(k)
  {
    if IsHit(Run(maxsize, h), k, useCache) {
      RunKeys(maxsize, h);
      RunValues(maxsize, h, k);
      ComputedByFunction(f, maxsize, h, k);
    }
  }
}
