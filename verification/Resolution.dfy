// Batch resolution of deferred object inputs: which summary each gets, what it turns into, and
// the laws of a resolution that succeeds or fails.

module Resolution {
  import opened Base
  import opened Ptb
  import opened BuilderSpec
  import opened BuilderLaws

  /** `ObjectSummary`, with its version numbers already read as integers. */
  datatype Summary = Summary(id: string, version: nat, digest: Digest, owned: bool, initialShared: Option<nat>)

  const MUT_REF := 2

  /** The client, as a function of the ids it is asked for. */
  type Client = seq<string> -> Base.Result<seq<Summary>>

  function LowerChar(c: char): char {
    if 'A' <= c <= 'Z' then 'a' + (c - 'A') else c
  }

  function Lower(s: string): string {
    MapSeq(s, LowerChar)
  }

  // ---- the object cache ----------------------------------------------------

  datatype Cache = Cache(owned: map<string, Summary>, shared: map<string, Summary>)

  /** `get_object`: the owned bucket first. */
  function CacheGet(c: Cache, id: string): Option<Summary> {
    if id in c.owned then Some(c.owned[id]) else if id in c.shared then Some(c.shared[id]) else None
  }

  /** `add_object`. */
  function CacheAdd(c: Cache, s: Summary): Cache {
    if s.owned then c.(owned := c.owned[s.id := s]) else c.(shared := c.shared[s.id := s])
  }

  /** Summaries are cached under their own id. */
  ghost predicate CacheOk(c: Cache) {
    (forall id :: id in c.owned ==> c.owned[id].id == id) && (forall id :: id in c.shared ==> c.shared[id].id == id)
  }

  function Lookup(cache: Option<Cache>, id: string): Option<Summary> {
    if cache.Some? then CacheGet(cache.value, id) else None
  }

  // ---- one input -----------------------------------------------------------

  /** The object argument that the flags of `u` and the summary call for. */
  function ObjectFor(u: Unresolved, a: Address, s: Summary): ObjectArg {
    if s.initialShared.Some? then Shared(a, s.initialShared.value, u.refType == MUT_REF)
    else if u.isReceiving then Receiving(ObjectRef(a, s.version, s.digest))
    else ImmOrOwned(ObjectRef(a, s.version, s.digest))
  }

  /** `_unresolved_to_builder_arg`. */
  function ResolvedEntry(u: Unresolved, s: Summary): Base.Result<Entry> {
    match ParseAddress(u.id)
    case Some(a) => Ok(Entry(KObject(a), Object(ObjectFor(u, a, s))))
    case None => Err("not an object id")
  }

  predicate IsDeferred(e: Entry) {
    e.key.KUnresolved? && e.arg.UnresolvedObject?
  }

  /** Keys and arguments agree on what is deferred. */
  ghost predicate DeferredKeys(s: State) {
    InStep(s.inputs)
  }

  ghost predicate InStep(inputs: seq<Entry>) {
    forall i :: 0 <= i < |inputs| ==> (inputs[i].key.KUnresolved? <==> inputs[i].arg.UnresolvedObject?)
  }

  // ---- the batch -----------------------------------------------------------

  /** The ids to ask the client for, in input order: those not in the cache. */
  function FetchIds(inputs: seq<Entry>, cache: Option<Cache>): seq<string> {
    if inputs == [] then []
    else
      FetchIds(inputs[..|inputs| - 1], cache) +
      (var e := inputs[|inputs| - 1];
       if IsDeferred(e) && Lookup(cache, e.arg.unres.id).None? then [e.arg.unres.id] else [])
  }

  /** The last fetched summary whose id is `id`, letter case aside. */
  function LastFetched(fetched: seq<Summary>, id: string): (r: Option<Summary>)
    ensures r.Some? ==> r.value in fetched && Lower(r.value.id) == Lower(id)
  {
    if fetched == [] then None
    else if Lower(fetched[|fetched| - 1].id) == Lower(id) then Some(fetched[|fetched| - 1])
    else LastFetched(fetched[..|fetched| - 1], id)
  }

  /** The summary for a deferred id. */
  function Pick(cache: Option<Cache>, fetched: seq<Summary>, id: string): Option<Summary> {
    if Lookup(cache, id).Some? then Lookup(cache, id) else LastFetched(fetched, id)
  }

  predicate Resolvable(cache: Option<Cache>, fetched: seq<Summary>, e: Entry) {
    IsDeferred(e) ==> Pick(cache, fetched, e.arg.unres.id).Some? && ParseAddress(e.arg.unres.id).Some?
  }

  function NewEntry(cache: Option<Cache>, fetched: seq<Summary>, e: Entry): Entry
    requires Resolvable(cache, fetched, e)
  {
    if IsDeferred(e) then ResolvedEntry(e.arg.unres, Pick(cache, fetched, e.arg.unres.id).value).value else e
  }

  /** The registry after `resolved_object_inputs` has walked the inputs. */
  function NewRegistry(inputs: seq<Entry>, news: seq<Entry>, registry: map<string, RegEntry>): map<string, RegEntry>
    requires |inputs| == |news|
  {
    if inputs == [] then registry
    else
      var n := |inputs| - 1;
      var before := NewRegistry(inputs[..n], news[..n], registry);
      if inputs[n].key.KUnresolved? && news[n].arg.Object? then
        before[inputs[n].key.name := Resolved(VariantName(news[n].arg.obj))]
      else before
  }

  function NewInputs(inputs: seq<Entry>, cache: Option<Cache>, fetched: seq<Summary>): (news: seq<Entry>)
    requires forall i :: 0 <= i < |inputs| ==> Resolvable(cache, fetched, inputs[i])
    ensures |news| == |inputs|
    ensures forall i :: 0 <= i < |inputs| ==> news[i] == NewEntry(cache, fetched, inputs[i])
  {
    seq(|inputs|, i requires 0 <= i < |inputs| => NewEntry(cache, fetched, inputs[i]))
  }

  /** What the client answers for the ids that must be fetched; nothing is asked for no ids. */
  function Fetched(s: State, cache: Option<Cache>, client: Client): Base.Result<seq<Summary>> {
    if FetchIds(s.inputs, cache) == [] then Ok([]) else client(FetchIds(s.inputs, cache))
  }

  /** `_resolve_deferred_inputs`. */
  function ResolveDeferred(s: State, cache: Option<Cache>, client: Client): Outcome<()> {
    match Fetched(s, cache, client)
    case Err(e) => Outcome(s, Err(e))
    case Ok(fetched) =>
      if forall i :: 0 <= i < |s.inputs| ==> Resolvable(cache, fetched, s.inputs[i]) then
        var news := NewInputs(s.inputs, cache, fetched);
        Outcome(s.(inputs := news, registry := NewRegistry(s.inputs, news, s.registry)), Ok(()))
      else Outcome(s, Err("objects not found or inaccessible"))
  }

  // ---- laws ----------------------------------------------------------------

  /** The summary that counts for an id: the cached one, or else the last fetched one with that id, letter
      case aside. */
  ghost predicate SummaryFor(cache: Option<Cache>, fetched: seq<Summary>, id: string, sm: Summary) {
    if Lookup(cache, id).Some? then sm == Lookup(cache, id).value
    else
      exists k ::
        && 0 <= k < |fetched| && fetched[k] == sm && Lower(sm.id) == Lower(id)
        && forall l :: k < l < |fetched| ==> Lower(fetched[l].id) != Lower(id)
  }

  /** What a deferred object and its summary make of an object argument: shared exactly if the summary has
      an initial shared version, and then mutable exactly if it was taken by mutable reference; otherwise
      receiving exactly if the flag says so; and its own id in each case. */
  predicate AsItsFlagsSay(u: Unresolved, sm: Summary, o: ObjectArg) {
    && ParseAddress(u.id) ==
       Some(match o case Shared(id, _, _) => id case ImmOrOwned(r) => r.id case Receiving(r) => r.id)
    && (o.Shared? <==> sm.initialShared.Some?)
    && (o.Receiving? <==> sm.initialShared.None? && u.isReceiving)
    && (o.ImmOrOwned? <==> sm.initialShared.None? && !u.isReceiving)
    && match o
       case Shared(_, version, mutable) => Some(version) == sm.initialShared && (mutable <==> u.refType == 2)
       case ImmOrOwned(r) => r.version == sm.version && r.digest == sm.digest
       case Receiving(r) => r.version == sm.version && r.digest == sm.digest
  }

  /** What a deferred input becomes: an object argument as its flags and its summary say, under the key
      of its id. */
  ghost predicate ResolvedFrom(cache: Option<Cache>, fetched: seq<Summary>, before: Entry, after: Entry)
    requires IsDeferred(before)
  {
    var u := before.arg.unres;
    && after.arg.Object?
    && ParseAddress(u.id).Some? && after.key == KObject(ParseAddress(u.id).value)
    && after.arg.obj.Id() == ParseAddress(u.id).value
    && exists sm: Summary ::
         SummaryFor(cache, fetched, u.id, sm) && Lower(sm.id) == Lower(u.id) && AsItsFlagsSay(u, sm, after.arg.obj)
  }

  /** A deferred input can be resolved: its id is an address, and there is a summary for it. */
  ghost predicate CanResolve(cache: Option<Cache>, fetched: seq<Summary>, e: Entry) {
    IsDeferred(e) ==>
      && ParseAddress(e.arg.unres.id).Some?
      && (|| Lookup(cache, e.arg.unres.id).Some?
          || exists k :: 0 <= k < |fetched| && Lower(fetched[k].id) == Lower(e.arg.unres.id))
  }

  lemma {:induction false} LastFetchedIsLast(fetched: seq<Summary>, id: string)
    ensures LastFetched(fetched, id).Some? <==>
      exists k :: 0 <= k < |fetched| && Lower(fetched[k].id) == Lower(id)
    ensures LastFetched(fetched, id).Some? ==> SummaryFor(None, fetched, id, LastFetched(fetched, id).value)
  {
    if fetched != [] {
      var n := |fetched| - 1;
      LastFetchedIsLast(fetched[..n], id);
      if Lower(fetched[n].id) != Lower(id) && LastFetched(fetched, id).Some? {
        var sm := LastFetched(fetched, id).value;
        var k :| 0 <= k < n && fetched[..n][k] == sm && Lower(sm.id) == Lower(id)
                 && forall l :: k < l < n ==> Lower(fetched[..n][l].id) != Lower(id);
        assert fetched[k] == sm && forall l :: k < l < |fetched| ==> Lower(fetched[l].id) != Lower(id) by {
          forall l | k < l < n ensures Lower(fetched[l].id) != Lower(id) { assert fetched[..n][l] == fetched[l]; }
        }
      }
      if k :| 0 <= k < n && Lower(fetched[k].id) == Lower(id) { assert fetched[..n][k] == fetched[k]; }
    }
  }

  lemma PickIsSummary(cache: Option<Cache>, fetched: seq<Summary>, e: Entry)
    requires IsDeferred(e)
    ensures Resolvable(cache, fetched, e) <==> CanResolve(cache, fetched, e)
    ensures Resolvable(cache, fetched, e) ==>
      SummaryFor(cache, fetched, e.arg.unres.id, Pick(cache, fetched, e.arg.unres.id).value)
  {
    LastFetchedIsLast(fetched, e.arg.unres.id);
  }

  lemma NewEntryIsResolved(cache: Option<Cache>, fetched: seq<Summary>, e: Entry)
    requires IsDeferred(e) && Resolvable(cache, fetched, e) && (cache.Some? ==> CacheOk(cache.value))
    ensures ResolvedFrom(cache, fetched, e, NewEntry(cache, fetched, e))
  {
    PickIsSummary(cache, fetched, e);
    var u, sm := e.arg.unres, Pick(cache, fetched, e.arg.unres.id).value;
    assert AsItsFlagsSay(u, sm, NewEntry(cache, fetched, e).arg.obj);
  }

  /** It succeeds exactly if the client answers and every deferred input can be resolved. On success
      nothing stays deferred, the list keeps its length and order, the other inputs are untouched, and the
      commands are; on failure the builder is as it was. */
  lemma ResolutionLaws(s: State, cache: Option<Cache>, client: Client)
    requires DeferredKeys(s) && (cache.Some? ==> CacheOk(cache.value))
    ensures var o := ResolveDeferred(s, cache, client);
      && (o.result.Ok? <==>
            && Fetched(s, cache, client).Ok?
            && forall i :: 0 <= i < |s.inputs| ==> CanResolve(cache, Fetched(s, cache, client).value, s.inputs[i]))
      && (o.result.Err? ==> o.state == s)
      && (o.result.Ok? ==>
          && |o.state.inputs| == |s.inputs| && o.state.commands == s.commands && DeferredKeys(o.state)
          && forall i :: 0 <= i < |s.inputs| ==>
               && !o.state.inputs[i].key.KUnresolved? && !o.state.inputs[i].arg.UnresolvedObject?
               && if IsDeferred(s.inputs[i])
                  then ResolvedFrom(cache, Fetched(s, cache, client).value, s.inputs[i], o.state.inputs[i])
                  else o.state.inputs[i] == s.inputs[i])
  {
    var o := ResolveDeferred(s, cache, client);
    if Fetched(s, cache, client).Ok? {
      var fetched := Fetched(s, cache, client).value;
      forall i | 0 <= i < |s.inputs|
        ensures Resolvable(cache, fetched, s.inputs[i]) <==> CanResolve(cache, fetched, s.inputs[i])
        ensures IsDeferred(s.inputs[i]) && Resolvable(cache, fetched, s.inputs[i]) ==>
          ResolvedFrom(cache, fetched, s.inputs[i], NewEntry(cache, fetched, s.inputs[i]))
      {
        if IsDeferred(s.inputs[i]) {
          PickIsSummary(cache, fetched, s.inputs[i]);
          if Resolvable(cache, fetched, s.inputs[i]) { NewEntryIsResolved(cache, fetched, s.inputs[i]); }
        }
      }
    }
  }

  predicate Missing(e: Entry, cache: Option<Cache>) {
    e.key.KUnresolved? && e.arg.UnresolvedObject? && Lookup(cache, e.arg.unres.id).None?
  }

  /** The ids of the inputs at these places, in order; and these are the places of all deferred inputs
      that are not cached. */
  ghost predicate IdsOfMissing(inputs: seq<Entry>, cache: Option<Cache>, missing: seq<nat>, ids: seq<string>) {
    && (forall k, l :: 0 <= k < l < |missing| ==> missing[k] < missing[l])
    && (forall i: nat :: i in missing <==> i < |inputs| && Missing(inputs[i], cache))
    && |ids| == |missing|
    && forall k :: 0 <= k < |missing| ==> HasId(inputs, missing[k], ids[k])
  }

  predicate HasId(inputs: seq<Entry>, i: nat, id: string) {
    i < |inputs| && inputs[i].arg.UnresolvedObject? && inputs[i].arg.unres.id == id
  }

  lemma OneMoreInput(inputs: seq<Entry>, e: Entry, cache: Option<Cache>, missing: seq<nat>, ids: seq<string>)
    requires IdsOfMissing(inputs, cache, missing, ids)
    ensures !Missing(e, cache) ==> IdsOfMissing(inputs + [e], cache, missing, ids)
    ensures Missing(e, cache) ==>
      IdsOfMissing(inputs + [e], cache, missing + [|inputs|], ids + [e.arg.unres.id])
  {
    var all := inputs + [e];
    forall k | 0 <= k < |missing| ensures missing[k] < |inputs| && HasId(all, missing[k], ids[k]) {
      assert missing[k] in missing && HasId(inputs, missing[k], ids[k]);
    }
    if Missing(e, cache) {
      forall i: nat ensures i in missing + [|inputs|] <==> i < |all| && Missing(all[i], cache) {}
    }
  }

  /** The ids that the client is asked for: those of the deferred inputs that are not cached, once for each
      of these inputs, in input order. */
  lemma {:induction false} AsksForTheMissing(inputs: seq<Entry>, cache: Option<Cache>) returns (missing: seq<nat>)
    ensures IdsOfMissing(inputs, cache, missing, FetchIds(inputs, cache))
  {
    missing := [];
    if inputs != [] {
      var n := |inputs| - 1;
      var before := AsksForTheMissing(inputs[..n], cache);
      assert inputs == inputs[..n] + [inputs[n]];
      OneMoreInput(inputs[..n], inputs[n], cache, before, FetchIds(inputs[..n], cache));
      missing := if Missing(inputs[n], cache) then before + [n] else before;
      FetchOneMore(inputs, cache);
    }
  }

  lemma FetchOneMore(inputs: seq<Entry>, cache: Option<Cache>)
    requires inputs != []
    ensures var e := inputs[|inputs| - 1];
      FetchIds(inputs, cache)
      == FetchIds(inputs[..|inputs| - 1], cache) + if Missing(e, cache) then [e.arg.unres.id] else []
  {
  }

  lemma {:induction false} NothingToFetch(inputs: seq<Entry>, cache: Option<Cache>)
    requires forall i :: 0 <= i < |inputs| ==> !IsDeferred(inputs[i])
    ensures FetchIds(inputs, cache) == []
  {
    if inputs != [] { NothingToFetch(inputs[..|inputs| - 1], cache); }
  }

  lemma {:induction false} RegistryUntouched(inputs: seq<Entry>, registry: map<string, RegEntry>)
    requires forall i :: 0 <= i < |inputs| ==> !inputs[i].key.KUnresolved?
    ensures NewRegistry(inputs, inputs, registry) == registry
  {
    if inputs != [] { RegistryUntouched(inputs[..|inputs| - 1], registry); }
  }

  lemma NothingDeferred(s: State, cache: Option<Cache>, client: Client)
    requires DeferredKeys(s) && forall i :: 0 <= i < |s.inputs| ==> !IsDeferred(s.inputs[i])
    ensures ResolveDeferred(s, cache, client) == Outcome(s, Ok(()))
  {
    NothingToFetch(s.inputs, cache);
    RegistryUntouched(s.inputs, s.registry);
    assert NewInputs(s.inputs, cache, []) == s.inputs;
  }

  /** Resolving again, whatever the cache and the client say by then, changes nothing. */
  lemma ResolutionIdempotent(s: State, cache: Option<Cache>, client: Client,
                             cache': Option<Cache>, client': Client)
    requires DeferredKeys(s) && (cache.Some? ==> CacheOk(cache.value))
    requires ResolveDeferred(s, cache, client).result.Ok?
    ensures ResolveDeferred(ResolveDeferred(s, cache, client).state, cache', client')
         == ResolveDeferred(s, cache, client)
  {
    ResolutionLaws(s, cache, client);
    NothingDeferred(ResolveDeferred(s, cache, client).state, cache', client');
  }

  lemma {:induction false} NewRegistryKeys(inputs: seq<Entry>, news: seq<Entry>, registry: map<string, RegEntry>,
                                           id: string)
    requires |inputs| == |news|
    requires forall i :: 0 <= i < |inputs| && inputs[i].key.KUnresolved? ==> news[i].arg.Object?
    ensures id in NewRegistry(inputs, news, registry) <==>
      id in registry || exists i :: 0 <= i < |inputs| && inputs[i].key == KUnresolved(id)
  {
    if inputs != [] {
      var n := |inputs| - 1;
      NewRegistryKeys(inputs[..n], news[..n], registry, id);
      if exists i :: 0 <= i < n && inputs[i].key == KUnresolved(id) {
        var i :| 0 <= i < n && inputs[i].key == KUnresolved(id);
        assert inputs[..n][i].key == KUnresolved(id);
      }
    }
  }

  /** The last input that was deferred under this id. */
  ghost predicate LastNamed(inputs: seq<Entry>, id: string, i: nat) {
    && i < |inputs| && inputs[i].key == KUnresolved(id)
    && forall j :: i < j < |inputs| ==> inputs[j].key != KUnresolved(id)
  }

  predicate IsKind(entry: RegEntry, o: ObjectArg) {
    match o
    case ImmOrOwned(_) => entry == Resolved("ImmOrOwnedObject")
    case Shared(_, _, _) => entry == Resolved("SharedObject")
    case Receiving(_) => entry == Resolved("Receiving")
  }

  ghost predicate KindAt(inputs: seq<Entry>, news: seq<Entry>, id: string, entry: RegEntry, i: nat) {
    LastNamed(inputs, id, i) && i < |news| && news[i].arg.Object? && IsKind(entry, news[i].arg.obj)
  }

  ghost predicate KindOfLast(inputs: seq<Entry>, news: seq<Entry>, id: string, entry: RegEntry) {
    exists i: nat :: KindAt(inputs, news, id, entry, i)
  }

  /** What the registry holds: under the id of a deferred input, as the caller gave it, the kind of reference
      that the last input of that id became; every other id as before. */
  lemma {:induction false} NewRegistryValues(inputs: seq<Entry>, news: seq<Entry>, registry: map<string, RegEntry>,
                                             id: string)
    requires |inputs| == |news|
    requires forall i :: 0 <= i < |inputs| && inputs[i].key.KUnresolved? ==> news[i].arg.Object?
    ensures var after := NewRegistry(inputs, news, registry);
      if exists i :: 0 <= i < |inputs| && inputs[i].key == KUnresolved(id)
      then id in after && KindOfLast(inputs, news, id, after[id])
      else (id in after <==> id in registry) && (id in after ==> after[id] == registry[id])
  {
    if inputs != [] {
      var n := |inputs| - 1;
      NewRegistryValues(inputs[..n], news[..n], registry, id);
      if inputs[n].key == KUnresolved(id) {
        assert KindAt(inputs, news, id, NewRegistry(inputs, news, registry)[id], n);
      } else {
        OneMoreNamed(inputs, news, n, id);
      }
    }
  }

  lemma OneMoreNamed(inputs: seq<Entry>, news: seq<Entry>, n: nat, id: string)
    requires |inputs| == |news| == n + 1 && inputs[n].key != KUnresolved(id)
    ensures (exists i :: 0 <= i < |inputs| && inputs[i].key == KUnresolved(id))
       <==> exists i :: 0 <= i < n && inputs[..n][i].key == KUnresolved(id)
    ensures forall e :: KindOfLast(inputs[..n], news[..n], id, e) ==> KindOfLast(inputs, news, id, e)
  {
    if i :| 0 <= i < |inputs| && inputs[i].key == KUnresolved(id) { assert inputs[..n][i] == inputs[i]; }
    forall e | KindOfLast(inputs[..n], news[..n], id, e) ensures KindOfLast(inputs, news, id, e) {
      var i: nat :| KindAt(inputs[..n], news[..n], id, e, i);
      assert inputs[..n][i] == inputs[i] && news[..n][i] == news[i];
      assert forall j :: i < j < n ==> inputs[j] == inputs[..n][j];
      assert KindAt(inputs, news, id, e, i);
    }
  }

  ghost predicate DeferredCanonical(s: State) {
    forall i :: 0 <= i < |s.inputs| && s.inputs[i].key.KUnresolved? ==> Canonical(s.inputs[i].key.name)
  }

  /** Whatever a deferred id is spelled like, some input has the canonical form of it. */
  ghost predicate DeferredListed(s: State) {
    forall i :: 0 <= i < |s.inputs| && s.inputs[i].key.KUnresolved? ==> Listed(s, s.inputs[i].key.name)
  }

  predicate Listed(s: State, name: string) {
    ParseAddress(name).Some? ==> HasObject(s, PrintAddress(ParseAddress(name).value))
  }

  lemma CanonicalIsListed(s: State)
    requires DeferredCanonical(s)
    ensures DeferredListed(s)
  {
    forall i | 0 <= i < |s.inputs| && s.inputs[i].key.KUnresolved? ensures Listed(s, s.inputs[i].key.name) {
      assert NamesObject(s.inputs[i].key, s.inputs[i].key.name);
    }
  }

  lemma RegistryKeepsIds(s: State, t: State, id: string)
    requires RegistryAgrees(s) && |t.inputs| == |s.inputs|
    requires t.registry == NewRegistry(s.inputs, t.inputs, s.registry)
    requires forall i :: 0 <= i < |s.inputs| && s.inputs[i].key.KUnresolved? ==> t.inputs[i].arg.Object?
    ensures id in t.registry <==> HasObject(s, id)
  {
    NewRegistryKeys(s.inputs, t.inputs, s.registry, id);
    if exists i :: 0 <= i < |s.inputs| && s.inputs[i].key == KUnresolved(id) {
      var i :| 0 <= i < |s.inputs| && s.inputs[i].key == KUnresolved(id);
      assert NamesObject(s.inputs[i].key, id);
    }
  }

  lemma OnlyCanonicalPrinted(t: State, id: string)
    requires forall k :: 0 <= k < |t.inputs| ==> !t.inputs[k].key.KUnresolved?
    requires HasObject(t, id)
    ensures Canonical(id)
  {
    var k :| 0 <= k < |t.inputs| && NamesObject(t.inputs[k].key, id);
    ParsePrintAddress(t.inputs[k].key.id);
  }

  /** The registry still describes the inputs exactly when every deferred id was canonical: the
      resolved key prints its id in lower case, the registry keeps the text it was given. */
  lemma ResolutionRegistry(s: State, cache: Option<Cache>, client: Client)
    requires DeferredKeys(s) && KeysMatch(s) && RegistryAgrees(s) && (cache.Some? ==> CacheOk(cache.value))
    requires ResolveDeferred(s, cache, client).result.Ok?
    ensures RegistryAgrees(ResolveDeferred(s, cache, client).state) <==> DeferredCanonical(s)
  {
    ResolutionLaws(s, cache, client);
    RegistryAfter(s, ResolveDeferred(s, cache, client).state);
  }

  /** With canonical ids, resolution changes how inputs are keyed but not which objects they name. */
  lemma SameObjects(s: State, t: State, id: string)
    requires DeferredCanonical(s) && KeysMatch(s) && DeferredKeys(s) && |s.inputs| == |t.inputs|
    requires forall i :: 0 <= i < |s.inputs| ==>
      if IsDeferred(s.inputs[i]) then
        t.inputs[i].key.KObject? && ParseAddress(s.inputs[i].arg.unres.id) == Some(t.inputs[i].key.id)
      else t.inputs[i] == s.inputs[i]
    ensures HasObject(s, id) <==> HasObject(t, id)
  {
    forall i | 0 <= i < |s.inputs| ensures NamesObject(s.inputs[i].key, id) <==> NamesObject(t.inputs[i].key, id) {
      if IsDeferred(s.inputs[i]) {
        assert KeyMatches(s.inputs[i].key, s.inputs[i].arg);
        assert PrintAddress(t.inputs[i].key.id) == s.inputs[i].key.name;
      }
    }
    if HasObject(s, id) {
      var i :| 0 <= i < |s.inputs| && NamesObject(s.inputs[i].key, id);
      assert NamesObject(t.inputs[i].key, id);
    }
    if HasObject(t, id) {
      var i :| 0 <= i < |t.inputs| && NamesObject(t.inputs[i].key, id);
      assert NamesObject(s.inputs[i].key, id);
    }
  }

  lemma RegistryAfter(s: State, t: State)
    requires DeferredKeys(s) && KeysMatch(s) && RegistryAgrees(s) && |t.inputs| == |s.inputs|
    requires t.registry == NewRegistry(s.inputs, t.inputs, s.registry)
    requires forall i :: 0 <= i < |s.inputs| ==>
      && !t.inputs[i].key.KUnresolved?
      && if IsDeferred(s.inputs[i]) then
           && t.inputs[i].arg.Object? && t.inputs[i].key.KObject?
           && ParseAddress(s.inputs[i].arg.unres.id) == Some(t.inputs[i].key.id)
         else t.inputs[i] == s.inputs[i]
    ensures RegistryAgrees(t) <==> DeferredCanonical(s)
  {
    forall id ensures id in t.registry <==> HasObject(s, id) { RegistryKeepsIds(s, t, id); }
    if DeferredCanonical(s) {
      forall id ensures HasObject(s, id) <==> HasObject(t, id) { SameObjects(s, t, id); }
    } else {
      var i :| 0 <= i < |s.inputs| && s.inputs[i].key.KUnresolved? && !Canonical(s.inputs[i].key.name);
      var id := s.inputs[i].key.name;
      assert NamesObject(s.inputs[i].key, id);
      assert id in t.registry;
      if HasObject(t, id) { OnlyCanonicalPrinted(t, id); }
    }
  }
}
