// The transaction object: batch resolution of its builder's deferred inputs through a client and
// an optional cache, and the resolved kind taken from a clone.

module Transaction {
  import opened Base
  import opened Ptb
  import opened BuilderSpec
  import opened Resolution
  import opened Builder

  class ObjectCache {
    var owned: map<string, Summary>
    var shared: map<string, Summary>

    function View(): Cache
      reads this
    {
      Cache(owned, shared)
    }

    ghost predicate Valid()
      reads this
    {
      CacheOk(View())
    }

    constructor ()
      ensures Valid() && View() == Cache(map[], map[])
    {
      owned, shared := map[], map[];
    }

    method GetObject(id: string) returns (r: Option<Summary>)
      ensures r == CacheGet(View(), id)
    {
      r := if id in owned then Some(owned[id]) else None;
      if r.None? && id in shared { r := Some(shared[id]); }
    }

    method AddObject(s: Summary)
      requires Valid()
      modifies this
      ensures Valid() && View() == CacheAdd(old(View()), s)
    {
      if s.owned { owned := owned[s.id := s]; } else { shared := shared[s.id := s]; }
    }
  }

  function CacheView(cache: ObjectCache?): Option<Cache>
    reads cache
  {
    if cache == null then None else Some(cache.View())
  }

  /** The deferred inputs below `n` that have a summary so far, with the entry it makes. */
  ghost predicate ResolvedSoFar(inputs: seq<Entry>, n: nat, cache: Option<Cache>, fetched: seq<Summary>, m: map<nat,
                                Entry>)
    requires n <= |inputs|
  {
    && (forall i: nat :: i in m <==>
         i < n && IsDeferred(inputs[i]) && Pick(cache, fetched, inputs[i].arg.unres.id).Some?)
    && (forall i: nat :: i in m ==>
         i < n && IsDeferred(inputs[i]) && Pick(cache, fetched, inputs[i].arg.unres.id).Some?
         && ResolvedEntry(inputs[i].arg.unres, Pick(cache, fetched, inputs[i].arg.unres.id).value) == Ok(m[i]))
  }

  /** Some deferred id is not the text of an address. */
  ghost predicate Unreadable(inputs: seq<Entry>) {
    exists i :: 0 <= i < |inputs| && IsDeferred(inputs[i]) && ParseAddress(inputs[i].arg.unres.id).None?
  }

  /** The inputs below `n` that must be fetched, with their ids, in order. */
  ghost predicate ToFetch(inputs: seq<Entry>, n: nat, cache: Option<Cache>, fetch: seq<(nat, string)>)
    requires n <= |inputs|
  {
    && FetchIds(inputs[..n], cache) == MapSeq(fetch, (f: (nat, string)) => f.1)
    && (forall k :: 0 <= k < |fetch| ==>
         && fetch[k].0 < n && IsDeferred(inputs[fetch[k].0]) && inputs[fetch[k].0].arg.unres.id == fetch[k].1
         && Lookup(cache, fetch[k].1).None?)
    && (forall i :: 0 <= i < n && IsDeferred(inputs[i]) && Lookup(cache, inputs[i].arg.unres.id).None? ==>
         exists k :: 0 <= k < |fetch| && fetch[k].0 == i)
  }

  lemma ToFetchStep(inputs: seq<Entry>, n: nat, cache: Option<Cache>, fetch: seq<(nat, string)>)
    requires n < |inputs| && ToFetch(inputs, n, cache, fetch)
    ensures if IsDeferred(inputs[n]) && Lookup(cache, inputs[n].arg.unres.id).None?
      then ToFetch(inputs, n + 1, cache, fetch + [(n, inputs[n].arg.unres.id)])
      else ToFetch(inputs, n + 1, cache, fetch)
  {
    assert inputs[..n + 1][..n] == inputs[..n];
    if IsDeferred(inputs[n]) && Lookup(cache, inputs[n].arg.unres.id).None? {
      var more := fetch + [(n, inputs[n].arg.unres.id)];
      forall i | 0 <= i < n + 1 && IsDeferred(inputs[i]) && Lookup(cache, inputs[i].arg.unres.id).None?
        ensures exists k :: 0 <= k < |more| && more[k].0 == i
      {
        if i < n {
          var k :| 0 <= k < |fetch| && fetch[k].0 == i;
          assert more[k].0 == i;
        } else {
          assert more[|fetch|].0 == i;
        }
      }
    }
  }

  /** `id_to_indices`: the fetched indices by lower-cased id. */
  ghost predicate Indexed(fetch: seq<(nat, string)>, n: nat, byId: map<string, seq<nat>>)
    requires n <= |fetch|
  {
    && (forall id, i :: id in byId && i in byId[id] ==>
          exists k :: 0 <= k < n && fetch[k].0 == i && Lower(fetch[k].1) == id)
    && (forall k :: 0 <= k < n ==> Lower(fetch[k].1) in byId && fetch[k].0 in byId[Lower(fetch[k].1)])
  }

  method IndexById(fetch: seq<(nat, string)>) returns (byId: map<string, seq<nat>>)
    ensures Indexed(fetch, |fetch|, byId)
  {
    byId := map[];
    for k := 0 to |fetch|
      invariant Indexed(fetch, k, byId)
    {
      var id := Lower(fetch[k].1);
      var at := if id in byId then byId[id] else [];
      ghost var before := byId;
      byId := byId[id := at + [fetch[k].0]];
      forall j | 0 <= j < k + 1 ensures Lower(fetch[j].1) in byId && fetch[j].0 in byId[Lower(fetch[j].1)] {
        if j < k { assert fetch[j].0 in before[Lower(fetch[j].1)]; }
      }
    }
  }

  /** `m` is `before` with the inputs of `indices` resolved from summary `e`. */
  ghost predicate Overwritten(inputs: seq<Entry>, before: map<nat, Entry>, indices: seq<nat>, e: Summary, m: map<nat,
                              Entry>) {
    && (forall i: nat :: i in m <==> i in before || i in indices)
    && (forall i: nat :: i in indices ==>
         i < |inputs| && IsDeferred(inputs[i]) && i in m && ResolvedEntry(inputs[i].arg.unres, e) == Ok(m[i]))
    && (forall i: nat :: i in before && i !in indices ==> i in m && m[i] == before[i])
  }

  lemma OverwriteOne(inputs: seq<Entry>, before: map<nat, Entry>, indices: seq<nat>, t: nat, e: Summary,
                     m: map<nat, Entry>, entry: Entry)
    requires t < |indices| && Overwritten(inputs, before, indices[..t], e, m)
    requires indices[t] < |inputs| && IsDeferred(inputs[indices[t]])
    requires ResolvedEntry(inputs[indices[t]].arg.unres, e) == Ok(entry)
    ensures Overwritten(inputs, before, indices[..t + 1], e, m[indices[t] := entry])
  {
    assert indices[..t + 1] == indices[..t] + [indices[t]];
  }

  /** The inputs that a fetched summary resolves. */
  function IndicesFor(byId: map<string, seq<nat>>, id: string): seq<nat> {
    if Lower(id) in byId then byId[Lower(id)] else []
  }

  lemma IndicesAreThoseIds(inputs: seq<Entry>, cache: Option<Cache>, fetch: seq<(nat, string)>,
                           byId: map<string, seq<nat>>, id: string, i: nat)
    requires ToFetch(inputs, |inputs|, cache, fetch) && Indexed(fetch, |fetch|, byId)
    ensures i in IndicesFor(byId, id) <==>
      i < |inputs| && IsDeferred(inputs[i]) && Lookup(cache, inputs[i].arg.unres.id).None?
      && Lower(inputs[i].arg.unres.id) == Lower(id)
  {
    if i < |inputs| && IsDeferred(inputs[i]) && Lookup(cache, inputs[i].arg.unres.id).None?
       && Lower(inputs[i].arg.unres.id) == Lower(id) {
      var k :| 0 <= k < |fetch| && fetch[k].0 == i;
    }
  }

  lemma PickStep(cache: Option<Cache>, fetched: seq<Summary>, e: Summary, id: string)
    ensures Pick(cache, fetched + [e], id) ==
      if Lookup(cache, id).None? && Lower(e.id) == Lower(id) then Some(e) else Pick(cache, fetched, id)
  {
    assert (fetched + [e])[..|fetched|] == fetched;
  }

  lemma MergeStep(inputs: seq<Entry>, cache: Option<Cache>, fetch: seq<(nat, string)>, byId: map<string, seq<nat>>,
                  fetched: seq<Summary>, e: Summary, before: map<nat, Entry>, m: map<nat, Entry>)
    requires ToFetch(inputs, |inputs|, cache, fetch) && Indexed(fetch, |fetch|, byId)
    requires ResolvedSoFar(inputs, |inputs|, cache, fetched, before)
    requires Overwritten(inputs, before, IndicesFor(byId, e.id), e, m)
    ensures ResolvedSoFar(inputs, |inputs|, cache, fetched + [e], m)
  {
    forall i: nat | i < |inputs| && IsDeferred(inputs[i])
      ensures i in IndicesFor(byId, e.id) <==>
        Lookup(cache, inputs[i].arg.unres.id).None? && Lower(inputs[i].arg.unres.id) == Lower(e.id)
      ensures Pick(cache, fetched + [e], inputs[i].arg.unres.id) ==
        if i in IndicesFor(byId, e.id) then Some(e) else Pick(cache, fetched, inputs[i].arg.unres.id)
    {
      IndicesAreThoseIds(inputs, cache, fetch, byId, e.id, i);
      PickStep(cache, fetched, e, inputs[i].arg.unres.id);
    }
  }

  /** Every deferred input resolved: the batch succeeds and the entries are the specified ones. */
  lemma AllResolved(s: State, cache: Option<Cache>, fetched: seq<Summary>, m: map<nat, Entry>)
    requires DeferredKeys(s) && ResolvedSoFar(s.inputs, |s.inputs|, cache, fetched, m)
    requires forall i :: 0 <= i < |s.inputs| && IsDeferred(s.inputs[i]) ==> i in m
    ensures forall i :: 0 <= i < |s.inputs| ==> Resolvable(cache, fetched, s.inputs[i])
    ensures forall i :: 0 <= i < |s.inputs| ==>
      NewEntry(cache, fetched, s.inputs[i]) == if s.inputs[i].key.KUnresolved? then m[i] else s.inputs[i]
  {
    forall i | 0 <= i < |s.inputs| ensures Resolvable(cache, fetched, s.inputs[i]) {
      if IsDeferred(s.inputs[i]) {
        assert ResolvedEntry(s.inputs[i].arg.unres, Pick(cache, fetched, s.inputs[i].arg.unres.id).value) == Ok(m[i]);
      }
    }
  }

  /** Some input that is not cached waits for this id, letter case aside. */
  predicate Asked(inputs: seq<Entry>, known: Option<Cache>, id: string) {
    exists i :: 0 <= i < |inputs| && Awaits(inputs[i], known, id)
  }

  predicate Awaits(e: Entry, known: Option<Cache>, id: string) {
    IsDeferred(e) && Lookup(known, e.arg.unres.id).None? && Lower(e.arg.unres.id) == Lower(id)
  }

  /** The cache with every summary that was asked for added, in order. */
  function CacheMerged(c: Cache, inputs: seq<Entry>, known: Option<Cache>, fetched: seq<Summary>): Cache {
    if fetched == [] then c
    else
      var before, e := CacheMerged(c, inputs, known, fetched[..|fetched| - 1]), fetched[|fetched| - 1];
      if Asked(inputs, known, e.id) then CacheAdd(before, e) else before
  }

  lemma MergeOne(c: Cache, inputs: seq<Entry>, known: Option<Cache>, fetched: seq<Summary>, e: Summary)
    ensures var before := CacheMerged(c, inputs, known, fetched);
      CacheMerged(c, inputs, known, fetched + [e])
      == if Asked(inputs, known, e.id) then CacheAdd(before, e) else before
  {
    assert (fetched + [e])[..|fetched|] == fetched;
  }

  lemma AskedExactly(inputs: seq<Entry>, known: Option<Cache>, fetch: seq<(nat, string)>,
                     byId: map<string, seq<nat>>, id: string)
    requires ToFetch(inputs, |inputs|, known, fetch) && Indexed(fetch, |fetch|, byId)
    ensures Asked(inputs, known, id) <==> IndicesFor(byId, id) != []
  {
    var indices := IndicesFor(byId, id);
    if indices != [] {
      assert indices[0] in indices;
      IndicesAreThoseIds(inputs, known, fetch, byId, id, indices[0]);
      assert Awaits(inputs[indices[0]], known, id);
    }
    if Asked(inputs, known, id) {
      var i :| 0 <= i < |inputs| && Awaits(inputs[i], known, id);
      IndicesAreThoseIds(inputs, known, fetch, byId, id, i);
    }
  }

  class AsyncSuiTransaction {
    const builder: ProgrammableTransactionBuilder
    const cache: ObjectCache?
    const client: Client

    constructor (b: ProgrammableTransactionBuilder, c: ObjectCache?, client_: Client)
      ensures builder == b && cache == c && client == client_
    {
      builder, cache, client := b, c, client_;
    }

    /** The pass over the deferred inputs: cached ones resolve at once, the others are to be fetched. */
    method ResolveCached(target: ProgrammableTransactionBuilder, unresolved: map<nat, Unresolved>)
      returns (ok: bool, fetch: seq<(nat, string)>, resolved: map<nat, Entry>)
      requires target.Valid()
      requires forall i: nat :: i in unresolved <==> i < |target.inputs| && IsDeferred(target.inputs[i])
      requires forall i: nat :: i in unresolved ==>
        i < |target.inputs| && IsDeferred(target.inputs[i]) && unresolved[i] == target.inputs[i].arg.unres
      ensures ok ==> ToFetch(target.inputs, |target.inputs|, CacheView(cache), fetch)
      ensures ok ==> ResolvedSoFar(target.inputs, |target.inputs|, CacheView(cache), [], resolved)
      ensures !ok ==> Unreadable(target.inputs)
    {
      ghost var inputs, known := target.inputs, CacheView(cache);
      fetch, resolved := [], map[];
      for i := 0 to |target.inputs|
        invariant ToFetch(inputs, i, known, fetch)
        invariant ResolvedSoFar(inputs, i, known, [], resolved)
      {
        ToFetchStep(inputs, i, known, fetch);
        if i in unresolved {
          var cached := None;
          if cache != null { cached := cache.GetObject(unresolved[i].id); }
          if cached.Some? {
            var entry := ResolvedEntry(unresolved[i], cached.value);
            if entry.Err? { return false, [], map[]; }
            resolved := resolved[i := entry.value];
          } else {
            fetch := fetch + [(i, unresolved[i].id)];
          }
        }
      }
      return true, fetch, resolved;
    }

    /** One fetched summary resolves every input that asked for its id. */
    method Overwrite(ghost inputs: seq<Entry>, unresolved: map<nat, Unresolved>, indices: seq<nat>, e: Summary,
                     start: map<nat, Entry>) returns (ok: bool, resolved: map<nat, Entry>)
      requires forall i: nat :: i in unresolved ==>
        i < |inputs| && IsDeferred(inputs[i]) && unresolved[i] == inputs[i].arg.unres
      requires forall i: nat :: i in indices ==> i in unresolved
      ensures ok ==> Overwritten(inputs, start, indices, e, resolved)
      ensures !ok ==> Unreadable(inputs)
    {
      resolved := start;
      for t := 0 to |indices|
        invariant Overwritten(inputs, start, indices[..t], e, resolved)
      {
        assert indices[t] in indices;
        var entry := ResolvedEntry(unresolved[indices[t]], e);
        if entry.Err? { return false, map[]; }
        OverwriteOne(inputs, start, indices, t, e, resolved, entry.value);
        resolved := resolved[indices[t] := entry.value];
      }
      assert indices[..|indices|] == indices;
      return true, resolved;
    }

    /** The pass over the fetched summaries: each that was asked for is cached and resolves every input
        with its id. An exception stops it after the summary that it cached last. */
    method MergeFetched(ghost inputs: seq<Entry>, ghost known: Option<Cache>, unresolved: map<nat, Unresolved>,
                        fetch: seq<(nat, string)>, fetched: seq<Summary>, start: map<nat, Entry>)
      returns (ok: bool, resolved: map<nat, Entry>)
      requires cache != null ==> cache.Valid()
      requires forall i: nat :: i in unresolved <==> i < |inputs| && IsDeferred(inputs[i])
      requires forall i: nat :: i in unresolved ==>
        i < |inputs| && IsDeferred(inputs[i]) && unresolved[i] == inputs[i].arg.unres
      requires ToFetch(inputs, |inputs|, known, fetch)
      requires ResolvedSoFar(inputs, |inputs|, known, [], start)
      modifies if cache == null then {} else {cache}
      ensures cache != null ==> cache.Valid()
      ensures cache != null && ok ==> cache.View() == CacheMerged(old(cache.View()), inputs, known, fetched)
      ensures cache != null && !ok ==>
        exists k :: 0 < k <= |fetched| && cache.View() == CacheMerged(old(cache.View()), inputs, known, fetched[..k])
      ensures ok ==> ResolvedSoFar(inputs, |inputs|, known, fetched, resolved)
      ensures !ok ==> Unreadable(inputs)
    {
      var byId := IndexById(fetch);
      ghost var view := if cache == null then Cache(map[], map[]) else cache.View();
      resolved, ok := start, true;
      assert fetched[..0] == [];
      for k := 0 to |fetched|
        invariant cache != null ==> cache.Valid() && cache.View() == CacheMerged(view, inputs, known, fetched[..k])
        invariant ResolvedSoFar(inputs, |inputs|, known, fetched[..k], resolved)
      {
        var e := fetched[k];
        var indices := IndicesFor(byId, e.id);
        forall i: nat | i in indices ensures i in unresolved {
          IndicesAreThoseIds(inputs, known, fetch, byId, e.id, i);
        }
        AskedExactly(inputs, known, fetch, byId, e.id);
        MergeOne(view, inputs, known, fetched[..k], e);
        assert fetched[..k] + [e] == fetched[..k + 1];
        if indices != [] && cache != null { cache.AddObject(e); }
        ghost var before := resolved;
        ok, resolved := Overwrite(inputs, unresolved, indices, e, resolved);
        if !ok { return false, map[]; }
        MergeStep(inputs, known, fetch, byId, fetched[..k], e, before, resolved);
      }
      assert fetched[..|fetched|] == fetched;
      return true, resolved;
    }

    /** Asks the client for what is missing; on success every deferred input has its entry. */
    method FetchMissing(ghost s: State, ghost known: Option<Cache>, unresolved: map<nat, Unresolved>,
                        fetch: seq<(nat, string)>, start: map<nat, Entry>)
      returns (ok: bool, resolved: map<nat, Entry>)
      requires cache != null ==> cache.Valid()
      requires forall i: nat :: i in unresolved <==> i < |s.inputs| && IsDeferred(s.inputs[i])
      requires forall i: nat :: i in unresolved ==>
        i < |s.inputs| && IsDeferred(s.inputs[i]) && unresolved[i] == s.inputs[i].arg.unres
      requires ToFetch(s.inputs, |s.inputs|, known, fetch)
      requires ResolvedSoFar(s.inputs, |s.inputs|, known, [], start)
      modifies if cache == null then {} else {cache}
      ensures cache != null ==> cache.Valid()
      ensures ok ==> Complete(s, known, client, resolved)
      ensures !ok ==> Unsuccessful(s, known, client)
    {
      assert s.inputs[..|s.inputs|] == s.inputs;
      ok, resolved := true, start;
      if fetch != [] {
        var ids := MapSeq(fetch, (f: (nat, string)) => f.1);
        assert ids == FetchIds(s.inputs, known);
        var answer := client(ids);
        if answer.Err? { return false, map[]; }
        ok, resolved := MergeFetched(s.inputs, known, unresolved, fetch, answer.value, resolved);
        if !ok { return false, map[]; }
        if exists k :: 0 <= k < |fetch| && fetch[k].0 !in resolved { return false, map[]; }
      } else {
        assert FetchIds(s.inputs, known) == [];
      }
      forall i | 0 <= i < |s.inputs| && IsDeferred(s.inputs[i]) ensures i in resolved {
        if Lookup(known, s.inputs[i].arg.unres.id).None? { var k :| 0 <= k < |fetch| && fetch[k].0 == i; }
      }
    }

    /** The resolution of a builder that has deferred inputs. */
    method ResolveSome(target: ProgrammableTransactionBuilder, unresolved: map<nat, Unresolved>, ghost s: State,
                       ghost known: Option<Cache>) returns (ok: bool, resolved: map<nat, Entry>)
      requires target.Valid() && (cache != null ==> cache.Valid())
      requires s == target.View() && known == CacheView(cache)
      requires forall i: nat :: i in unresolved <==> i < |s.inputs| && IsDeferred(s.inputs[i])
      requires forall i: nat :: i in unresolved ==>
        i < |s.inputs| && IsDeferred(s.inputs[i]) && unresolved[i] == s.inputs[i].arg.unres
      modifies if cache == null then {} else {cache}
      ensures cache != null ==> cache.Valid()
      ensures ok ==> Complete(s, known, client, resolved)
      ensures !ok ==> Unsuccessful(s, known, client)
    {
      var fetch;
      ok, fetch, resolved := ResolveCached(target, unresolved);
      if ok { ok, resolved := FetchMissing(s, known, unresolved, fetch, resolved); }
    }

    /** `_resolve_deferred_inputs`: all or nothing on the target builder. */
    method ResolveDeferredInputs(target: ProgrammableTransactionBuilder) returns (r: Base.Result<()>)
      requires target.Valid() && (cache != null ==> cache.Valid())
      modifies target, if cache == null then {} else {cache}
      ensures target.Valid() && (cache != null ==> cache.Valid())
      ensures target.View() == ResolveDeferred(old(target.View()), old(CacheView(cache)), client).state
      ensures r.Ok? <==> ResolveDeferred(old(target.View()), old(CacheView(cache)), client).result.Ok?
    {
      r := ResolveInto(target, target.View(), CacheView(cache));
    }

    method ResolveInto(target: ProgrammableTransactionBuilder, ghost s: State,
                       ghost known: Option<Cache>) returns (r: Base.Result<()>)
      requires target.Valid() && (cache != null ==> cache.Valid())
      requires s == target.View() && known == CacheView(cache)
      modifies target, if cache == null then {} else {cache}
      ensures target.Valid() && (cache != null ==> cache.Valid())
      ensures target.View() == ResolveDeferred(s, known, client).state
      ensures r.Ok? <==> ResolveDeferred(s, known, client).result.Ok?
    {
      var unresolved := target.GetUnresolvedInputs();
      if unresolved == map[] {
        NothingDeferred(s, known, client);
        return Ok(());
      }
      r := ResolveThose(target, unresolved, s, known);
    }

    method ResolveThose(target: ProgrammableTransactionBuilder, unresolved: map<nat, Unresolved>, ghost s: State,
                        ghost known: Option<Cache>) returns (r: Base.Result<()>)
      requires target.Valid() && (cache != null ==> cache.Valid())
      requires s == target.View() && known == CacheView(cache)
      requires forall i: nat :: i in unresolved <==> i < |s.inputs| && IsDeferred(s.inputs[i])
      requires forall i: nat :: i in unresolved ==>
        i < |s.inputs| && IsDeferred(s.inputs[i]) && unresolved[i] == s.inputs[i].arg.unres
      modifies target, if cache == null then {} else {cache}
      ensures target.Valid() && (cache != null ==> cache.Valid())
      ensures target.View() == ResolveDeferred(s, known, client).state
      ensures r.Ok? <==> ResolveDeferred(s, known, client).result.Ok?
    {
      var ok, resolved := ResolveSome(target, unresolved, s, known);
      if !ok {
        UnsuccessfulFails(s, known, client);
        return Err("objects not found or inaccessible");
      }
      Install(target, resolved, s, known);
      return Ok(());
    }

    /** A complete set of resolved entries goes into the target in one step. */
    method Install(target: ProgrammableTransactionBuilder, resolved: map<nat, Entry>, ghost s: State,
                   ghost known: Option<Cache>)
      requires target.Valid() && s == target.View() && DeferredKeys(s) && Complete(s, known, client, resolved)
      modifies target
      ensures target.Valid() && ResolveDeferred(s, known, client) == Outcome(target.View(), Ok(()))
    {
      CompleteEntries(s, known, client, resolved);
      target.ResolvedObjectInputs(resolved);
      CompleteSucceeds(s, known, client, resolved, target.View());
    }

    /** `raw_kind`: resolves a clone; this transaction's builder is not modified. */
    method RawKind() returns (r: Base.Result<Block>)
      requires builder.Valid() && (cache != null ==> cache.Valid())
      modifies if cache == null then {} else {cache}
      ensures cache != null ==> cache.Valid()
      ensures var o := ResolveDeferred(builder.View(), old(CacheView(cache)), client);
        && (r.Ok? <==> o.result.Ok?)
        && (r.Ok? ==> r.value == Block(CallArgs(o.state), builder.commands))
    {
      var clone := builder.ShallowClone();
      var done := ResolveDeferredInputs(clone);
      if done.Err? { return Err(done.why); }
      return Ok(clone.Finish());
    }
  }

  /** Every deferred input has its entry. */
  ghost predicate Complete(s: State, cache: Option<Cache>, client: Client, m: map<nat, Entry>) {
    && Fetched(s, cache, client).Ok?
    && ResolvedSoFar(s.inputs, |s.inputs|, cache, Fetched(s, cache, client).value, m)
    && forall i :: 0 <= i < |s.inputs| && IsDeferred(s.inputs[i]) ==> i in m
  }

  lemma CompleteEntries(s: State, cache: Option<Cache>, client: Client, m: map<nat, Entry>)
    requires DeferredKeys(s) && Complete(s, cache, client, m)
    ensures HasEntries(s.inputs, m)
  {
  }

  lemma CompleteSucceeds(s: State, cache: Option<Cache>, client: Client, m: map<nat, Entry>, t: State)
    requires DeferredKeys(s) && Complete(s, cache, client, m)
    requires |t.inputs| == |s.inputs| && t.commands == s.commands
    requires t.compress == s.compress && t.frequency == s.frequency
    requires forall i :: 0 <= i < |s.inputs| && s.inputs[i].key.KUnresolved? ==> i in m
    requires forall i :: 0 <= i < |s.inputs| ==>
      t.inputs[i] == if s.inputs[i].key.KUnresolved? then m[i] else s.inputs[i]
    requires t.registry == NewRegistry(s.inputs, t.inputs, s.registry)
    ensures ResolveDeferred(s, cache, client) == Outcome(t, Ok(()))
  {
    AllResolved(s, cache, Fetched(s, cache, client).value, m);
    assert t.inputs == NewInputs(s.inputs, cache, Fetched(s, cache, client).value);
  }

  /** The ways a batch fails: unreadable text, a client error, or an id without a summary. */
  ghost predicate Unsuccessful(s: State, cache: Option<Cache>, client: Client) {
    || Unreadable(s.inputs)
    || Fetched(s, cache, client).Err?
    || exists i :: 0 <= i < |s.inputs| && !Resolvable(cache, Fetched(s, cache, client).value, s.inputs[i])
  }

  lemma UnsuccessfulFails(s: State, cache: Option<Cache>, client: Client)
    requires Unsuccessful(s, cache, client)
    ensures ResolveDeferred(s, cache, client).state == s && ResolveDeferred(s, cache, client).result.Err?
  {
    var f := Fetched(s, cache, client);
    if f.Ok? && Unreadable(s.inputs) {
      var i :| 0 <= i < |s.inputs| && IsDeferred(s.inputs[i]) && ParseAddress(s.inputs[i].arg.unres.id).None?;
      assert !Resolvable(cache, f.value, s.inputs[i]);
    }
  }
}
