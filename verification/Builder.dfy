// The transaction builder as the mutable object it is: every method is tied to the state machine
// of BuilderSpec.dfy.

module Builder {
  import opened Base
  import opened Ptb
  import Spec = BuilderSpec
  import Laws = BuilderLaws
  import Resolution
  import opened BuilderSpec

  /** The first `i` slots of a run that began in `start` are resolved, to `args`. */
  ghost predicate ResolvedSome(start: State, slots: seq<Slot>, now: State, i: nat, args: seq<Argument>)
    requires i <= |slots|
  {
    var rest := ResolveAll(now, slots[i..]);
    ResolveAll(start, slots) == Outcome(rest.state, Append(args, rest.result))
  }

  lemma ResolvedNothing(start: State, slots: seq<Slot>)
    requires slots[0..] == slots
    ensures ResolvedSome(start, slots, start, 0, [])
  {
    var all := ResolveAll(start, slots);
    if all.result.Ok? { assert [] + all.result.value == all.result.value; }
  }

  lemma ResolvedOneMore(start: State, slots: seq<Slot>, now: State, i: nat, args: seq<Argument>)
    requires i < |slots| && ResolvedSome(start, slots, now, i, args)
    ensures var one := Spec.Resolve(now, slots[i].place, slots[i].user);
      && (one.result.Err? ==> ResolveAll(start, slots) == Outcome(one.state, Err(one.result.why)))
      && (one.result.Ok? ==> ResolvedSome(start, slots, one.state, i + 1, args + one.result.value))
  {
    var rest := slots[i..];
    assert rest[0] == slots[i] && rest[1..] == slots[i + 1..];
    var one := Spec.Resolve(now, slots[i].place, slots[i].user);
    if one.result.Ok? { AppendTwice(args, one.result.value, ResolveAll(one.state, slots[i + 1..]).result); }
  }

  lemma AppendTwice(xs: seq<Argument>, ys: seq<Argument>, r: Base.Result<seq<Argument>>)
    ensures Append(xs, Append(ys, r)) == Append(xs + ys, r)
  {
    if r.Ok? { assert xs + (ys + r.value) == xs + ys + r.value; }
  }

  predicate HasEntries(inputs: seq<Entry>, entries: map<nat, Entry>) {
    forall i :: 0 <= i < |inputs| && inputs[i].key.KUnresolved? ==>
      i in entries && entries[i].key.KObject? && entries[i].arg.Object?
  }

  /** The first `k` inputs after the replacement of the deferred ones, and the registry by then. */
  ghost predicate ReplacedSome(inputs: seq<Entry>, entries: map<nat, Entry>, k: nat, news: seq<Entry>,
                               before: map<string, RegEntry>, registry: map<string, RegEntry>)
    requires HasEntries(inputs, entries)
  {
    && |news| == k <= |inputs|
    && (forall i :: 0 <= i < k ==> news[i] == if inputs[i].key.KUnresolved? then entries[i] else inputs[i])
    && registry == Resolution.NewRegistry(inputs[..k], news, before)
  }

  lemma ReplacedOneMore(inputs: seq<Entry>, entries: map<nat, Entry>, k: nat, news: seq<Entry>, e: Entry,
                        before: map<string, RegEntry>, registry: map<string, RegEntry>, next: map<string, RegEntry>)
    requires k < |inputs| && HasEntries(inputs, entries)
    requires ReplacedSome(inputs, entries, k, news, before, registry)
    requires e == if inputs[k].key.KUnresolved? then entries[k] else inputs[k]
    requires next == if inputs[k].key.KUnresolved? then
                       registry[inputs[k].key.name := Resolved(VariantName(entries[k].arg.obj))]
                     else registry
    ensures ReplacedSome(inputs, entries, k + 1, news + [e], before, next)
  {
    assert inputs[..k + 1][..k] == inputs[..k] && (news + [e])[..k] == news;
  }

  lemma ReplacedAll(inputs: seq<Entry>, entries: map<nat, Entry>, news: seq<Entry>, before: map<string, RegEntry>,
                    registry: map<string, RegEntry>)
    requires HasEntries(inputs, entries) && Resolution.InStep(inputs)
    requires ReplacedSome(inputs, entries, |inputs|, news, before, registry)
    ensures |news| == |inputs| && Resolution.InStep(news)
    ensures forall i :: 0 <= i < |inputs| ==> news[i] == if inputs[i].key.KUnresolved? then entries[i] else inputs[i]
    ensures registry == Resolution.NewRegistry(inputs, news, before)
  {
    assert inputs[..|inputs|] == inputs;
  }

  class ProgrammableTransactionBuilder {
    var inputs: seq<Entry>
    var commands: seq<Command<Argument>>
    var objectsRegistry: map<string, RegEntry>
    var commandFrequency: map<Kind, nat>
    const compressInputs: bool

    function View(): State
      reads this
    {
      State(compressInputs, inputs, commands, objectsRegistry, commandFrequency)
    }

    /** Every command kind has a count, and keys and arguments agree on what is deferred. */
    ghost predicate Valid()
      reads this
    {
      (forall k :: k in commandFrequency) && Resolution.DeferredKeys(View())
    }

    constructor (compress: bool)
      ensures Valid() && View() == Init(compress)
    {
      inputs, commands, objectsRegistry, commandFrequency := [], [], map[], ZERO_COUNTS;
      compressInputs := compress;
      new;
      Laws.InitCounts(compress);
    }

    /** `_find_duplicate_pure` and `_find_duplicate_obj`. */
    method FindDuplicate(arg: CallArg) returns (r: Option<nat>)
      ensures r == FindArg(inputs, arg, 0)
    {
      for i := 0 to |inputs|
        invariant FindArg(inputs, arg, 0) == FindArg(inputs, arg, i)
      {
        if inputs[i].arg == arg { return Some(i); }
      }
      return None;
    }

    /** The scan for a deferred or resolved input with that id. */
    method FindSameObject(id: string) returns (r: Option<nat>)
      ensures r == FindObject(inputs, id, 0)
    {
      for i := 0 to |inputs|
        invariant FindObject(inputs, id, 0) == FindObject(inputs, id, i)
      {
        if inputs[i].key == KUnresolved(id) { return Some(i); }
        if inputs[i].key.KObject? && PrintAddress(inputs[i].key.id) == id { return Some(i); }
      }
      return None;
    }

    method InputPure(key: BuilderArg) returns (r: Base.Result<Argument>)
      requires Valid()
      modifies this
      ensures Valid() && Outcome(View(), r) == Spec.InputPure(old(View()), key)
    {
      var index := |inputs|;
      if !key.KPure? { return Err("expected a pure key"); }
      if compressInputs {
        var dup := FindDuplicate(Pure(key.data));
        if dup.Some? { return Ok(Input(dup.value)); }
      }
      inputs := inputs + [Entry(key, Pure(key.data))];
      return Ok(Input(index));
    }

    method InputObj(key: BuilderArg, target: ObjectTarget) returns (r: Base.Result<Argument>)
      requires Valid()
      modifies this
      ensures Valid() && Outcome(View(), r) == Spec.InputObj(old(View()), key, target)
    {
      var index := |inputs|;
      if key.KObject? && target.Known? {
        if compressInputs {
          var dup := FindDuplicate(Object(target.obj));
          if dup.Some? { return Ok(Input(dup.value)); }
        }
        inputs := inputs + [Entry(key, Object(target.obj))];
        objectsRegistry := objectsRegistry[PrintAddress(key.id) := Resolved(VariantName(target.obj))];
      } else if key.KUnresolved? && target.Later? {
        if compressInputs && key.name in objectsRegistry {
          var dup := FindSameObject(key.name);
          if dup.Some? { return Ok(Input(dup.value)); }
        }
        inputs := inputs + [Entry(key, UnresolvedObject(target.unres))];
        objectsRegistry := objectsRegistry[key.name := Deferred(target.unres)];
      } else {
        return Err("expected an object key and argument");
      }
      return Ok(Input(index));
    }

    method InputObjFromWithdrawal(w: Withdrawal) returns (r: Base.Result<Argument>)
      requires Valid()
      modifies this
      ensures Valid() && Outcome(View(), r) == Spec.InputWithdrawal(old(View()), w)
    {
      r := Ok(Input(|inputs|));
      inputs := inputs + [Entry(KWithdrawal(w), FundsWithdrawal(w))];
    }

    /** One user argument: `_resolve_arg` and its siblings. */
    method ResolveArg(p: Place, u: UserArg) returns (r: Base.Result<seq<Argument>>)
      requires Valid()
      modifies this
      ensures Valid() && Outcome(View(), r) == Spec.Resolve(old(View()), p, u)
    {
      if !Accepts(p, u) { return Err("unknown argument"); }
      var one: Base.Result<Argument>;
      match u {
        case AArgument(a) => one := Ok(a);
        case AAbsent => return Ok([]);
        case AKey(k) => one := InputPure(k);
        case APure(d) => one := InputPure(KPure(d));
        case AUnresolved(x) =>
          var id := SuiId(x.id);
          one := InputObj(KUnresolved(id), Later(x.(id := id)));
        case AObject(o) => one := InputObj(KObject(o.Id()), Known(o));
        case AKeyed(k, t) => one := InputObj(k, t);
        case AWithdrawal(w) => one := InputObjFromWithdrawal(w);
      }
      r := match one case Ok(a) => Ok([a]) case Err(e) => Err(e);
    }

    /** The loops over argument lists: arguments accumulate until one raises. */
    method ResolveArgs(slots: seq<Slot>) returns (r: Base.Result<seq<Argument>>)
      requires Valid()
      modifies this
      ensures Valid() && Outcome(View(), r) == ResolveAll(old(View()), slots)
    {
      var args: seq<Argument> := [];
      ghost var start := View();
      assert slots[0..] == slots;
      ResolvedNothing(start, slots);
      for i := 0 to |slots|
        invariant Valid()
        invariant ResolvedSome(start, slots, View(), i, args)
      {
        ResolvedOneMore(start, slots, View(), i, args);
        var one := ResolveArg(slots[i].place, slots[i].user);
        if one.Err? { return Err(one.why); }
        args := args + one.value;
      }
      assert slots[|slots|..] == [] && args + [] == args;
      return Ok(args);
    }

    /** `command`. */
    method AddCommand(c: Command<Argument>, nresults: nat) returns (r: seq<Argument>)
      requires Valid()
      modifies this
      ensures Valid() && View() == Spec.AddCommand(old(View()), c)
      ensures r == Results(old(|commands|), nresults)
    {
      commandFrequency := commandFrequency[KindOf(c) := commandFrequency[KindOf(c)] + 1];
      var index := |commands|;
      commands := commands + [c];
      if nresults > 1 {
        r := [];
        for n := 0 to nresults
          invariant r == seq(n, i requires 0 <= i < n => NestedResult(index, i))
        {
          r := r + [NestedResult(index, n)];
        }
      } else {
        r := [Argument.Result(index)];
      }
    }

    /** The command methods, one per constructor of `Op`. */
    method Execute(op: Op) returns (r: Base.Result<seq<Argument>>)
      requires Valid()
      modifies this
      ensures Valid() && Outcome(View(), r) == Exec(old(View()), op)
    {
      var resolved := ResolveArgs(Slots(op));
      if resolved.Err? { return Err(resolved.why); }
      var args := resolved.value;
      if op.OpTransferSui? && op.amount.Some? {
        var split := AddCommand(SplitCoin(args[2], [args[1]]), 1);
      }
      var results := AddCommand(Make(op, args, |commands|), ResultCount(op));
      return Ok(results);
    }

    method GetUnresolvedInputs() returns (m: map<nat, Unresolved>)
      requires Valid()
      ensures forall i: nat :: i in m <==> i < |inputs| && Resolution.IsDeferred(inputs[i])
      ensures forall i: nat :: i in m ==>
        i < |inputs| && Resolution.IsDeferred(inputs[i]) && m[i] == inputs[i].arg.unres
    {
      m := map[];
      for k := 0 to |inputs|
        invariant forall i: nat :: i in m <==> i < k && Resolution.IsDeferred(inputs[i])
        invariant forall i: nat :: i in m ==>
          i < |inputs| && Resolution.IsDeferred(inputs[i]) && m[i] == inputs[i].arg.unres
      {
        if inputs[k].key.KUnresolved? { m := m[k := inputs[k].arg.unres]; }
      }
    }

    /** Replaces each deferred input by its entry; a missing entry raises before anything changes. */
    method ResolvedObjectInputs(entries: map<nat, Entry>)
      requires Valid() && HasEntries(inputs, entries)
      modifies this
      ensures Valid()
      ensures |inputs| == |old(inputs)| && commands == old(commands) && commandFrequency == old(commandFrequency)
      ensures forall i :: 0 <= i < |inputs| ==>
        inputs[i] == if old(inputs)[i].key.KUnresolved? then entries[i] else old(inputs)[i]
      ensures objectsRegistry == Resolution.NewRegistry(old(inputs), inputs, old(objectsRegistry))
    {
      var newInputs := [];
      ghost var was, before := inputs, objectsRegistry;
      for k := 0 to |inputs|
        invariant inputs == was && commands == old(commands) && commandFrequency == old(commandFrequency)
        invariant ReplacedSome(was, entries, k, newInputs, before, objectsRegistry)
      {
        ghost var registry, news := objectsRegistry, newInputs;
        if inputs[k].key.KUnresolved? {
          newInputs := newInputs + [entries[k]];
          objectsRegistry := objectsRegistry[inputs[k].key.name := Resolved(VariantName(entries[k].arg.obj))];
        } else {
          newInputs := newInputs + [inputs[k]];
        }
        ReplacedOneMore(was, entries, k, news, newInputs[k], before, registry, objectsRegistry);
      }
      ReplacedAll(was, entries, newInputs, before, objectsRegistry);
      inputs := newInputs;
    }

    /** `shallow_clone`: a new builder over copies of the four collections. */
    method ShallowClone() returns (clone: ProgrammableTransactionBuilder)
      requires Valid()
      ensures fresh(clone) && clone.Valid() && clone.View() == View()
    {
      clone := new ProgrammableTransactionBuilder(compressInputs);
      clone.inputs := inputs;
      clone.commands := commands;
      clone.objectsRegistry := objectsRegistry;
      clone.commandFrequency := commandFrequency;
    }

    /** `_finish`: the programmable transaction. */
    function Finish(): Block
      reads this
    {
      Block(CallArgs(View()), commands)
    }
  }
}
