// Laws of every run of the builder: references stay in scope, earlier arguments keep their
// meaning, the counts and the registry describe the lists, and compressing inputs keeps meaning.

module BuilderLaws {
  import opened Base
  import opened Ptb
  import opened BuilderSpec

  // ---- the lists only grow -------------------------------------------------

  ghost predicate Extends(s: State, t: State) {
    s.compress == t.compress && s.inputs <= t.inputs && s.commands <= t.commands
  }

  lemma ResolveExtends(s: State, p: Place, u: UserArg)
    ensures Extends(s, Resolve(s, p, u).state)
    ensures Resolve(s, p, u).state.commands == s.commands
    ensures Resolve(s, p, u).state.frequency == s.frequency
  {
  }

  lemma {:induction false} ResolveAllExtends(s: State, slots: seq<Slot>)
    ensures Extends(s, ResolveAll(s, slots).state)
    ensures ResolveAll(s, slots).state.commands == s.commands
    ensures ResolveAll(s, slots).state.frequency == s.frequency
    decreases |slots|
  {
    if slots != [] {
      ResolveExtends(s, slots[0].place, slots[0].user);
      var first := Resolve(s, slots[0].place, slots[0].user);
      if first.result.Ok? { ResolveAllExtends(first.state, slots[1..]); }
    }
  }

  lemma ExecExtends(s: State, op: Op)
    ensures Extends(s, Exec(s, op).state)
  {
    ResolveAllExtends(s, Slots(op));
  }

  lemma TakeExtends(s: State, turn: Turn)
    ensures Extends(s, Take(s, turn).state)
  {
    match turn
    case Call(op) => ExecExtends(s, op);
    case Register(p, u) => ResolveExtends(s, p, u);
  }

  lemma {:induction false} RunExtends(s: State, turns: seq<Turn>)
    ensures Extends(s, Run(s, turns))
    decreases |turns|
  {
    if turns != [] {
      TakeExtends(s, turns[0]);
      RunExtends(Take(s, turns[0]).state, turns[1..]);
    }
  }

  predicate InScope(s: State, a: Argument) {
    ArgumentInScope(a, |s.inputs|, |s.commands|)
  }

  /** An argument that was valid once names the same input or the same command after any later run. */
  lemma EarlierArgumentKeepsMeaning(s: State, turns: seq<Turn>, a: Argument)
    requires InScope(s, a)
    ensures InScope(Run(s, turns), a)
    ensures Denote(CallArgs(Run(s, turns)), a) == Denote(CallArgs(s), a)
    ensures a.Result? || a.NestedResult? ==> Run(s, turns).commands[a.cmd] == s.commands[a.cmd]
  {
    RunExtends(s, turns);
  }

  // ---- references stay in scope --------------------------------------------

  /** Every command refers to existing inputs and to earlier commands only. */
  ghost predicate Safe(s: State) {
    WellFormed(Block(CallArgs(s), s.commands))
  }

  /** Arguments that the caller hands back must have been valid already. */
  predicate OpInScope(s: State, op: Op) {
    && (forall i :: 0 <= i < |Slots(op)| && Slots(op)[i].user.AArgument? ==> InScope(s, Slots(op)[i].user.a))
    && (op.OpPublishUpgrade? ==> InScope(s, op.ticket))
    && (op.OpCommitUpgrade? ==> InScope(s, op.capArg) && InScope(s, op.receipt))
  }

  predicate TurnInScope(s: State, turn: Turn) {
    match turn
    case Call(op) => OpInScope(s, op)
    case Register(_, u) => u.AArgument? ==> InScope(s, u.a)
  }

  predicate RunInScope(s: State, turns: seq<Turn>)
    decreases |turns|
  {
    turns == [] || (TurnInScope(s, turns[0]) && RunInScope(Take(s, turns[0]).state, turns[1..]))
  }

  predicate AllInScope(s: State, args: seq<Argument>) {
    forall a :: a in args ==> InScope(s, a)
  }

  lemma {:induction false} FindArgFinds(inputs: seq<Entry>, arg: CallArg, from: nat)
    ensures var r := FindArg(inputs, arg, from);
      && (r.Some? ==> from <= r.value < |inputs| && inputs[r.value].arg == arg)
      && (r.None? ==> forall i :: from <= i < |inputs| ==> inputs[i].arg != arg)
    decreases |inputs| - from
  {
    if from < |inputs| { FindArgFinds(inputs, arg, from + 1); }
  }

  lemma {:induction false} FindObjectFinds(inputs: seq<Entry>, id: string, from: nat)
    ensures var r := FindObject(inputs, id, from);
      && (r.Some? ==> from <= r.value < |inputs| && NamesObject(inputs[r.value].key, id))
      && (r.None? ==> forall i :: from <= i < |inputs| ==> !NamesObject(inputs[i].key, id))
    decreases |inputs| - from
  {
    if from < |inputs| { FindObjectFinds(inputs, id, from + 1); }
  }

  lemma ResolveInScope(s: State, p: Place, u: UserArg)
    requires u.AArgument? ==> InScope(s, u.a)
    ensures Resolve(s, p, u).result.Ok? ==> AllInScope(Resolve(s, p, u).state, Resolve(s, p, u).result.value)
  {
    match u {
      case AKey(k) => if k.KPure? { FindArgFinds(s.inputs, Pure(k.data), 0); }
      case APure(d) => FindArgFinds(s.inputs, Pure(d), 0);
      case AUnresolved(x) => FindObjectFinds(s.inputs, SuiId(x.id), 0);
      case AObject(o) => FindArgFinds(s.inputs, Object(o), 0);
      case AKeyed(k, t) =>
        if t.Known? { FindArgFinds(s.inputs, Object(t.obj), 0); }
        if k.KUnresolved? { FindObjectFinds(s.inputs, k.name, 0); }
      case _ =>
    }
  }

  lemma {:induction false} ResolveAllInScope(s: State, slots: seq<Slot>)
    requires forall i :: 0 <= i < |slots| && slots[i].user.AArgument? ==> InScope(s, slots[i].user.a)
    ensures var o := ResolveAll(s, slots); o.result.Ok? ==> AllInScope(o.state, o.result.value)
    decreases |slots|
  {
    if slots != [] {
      var first := Resolve(s, slots[0].place, slots[0].user);
      ResolveInScope(s, slots[0].place, slots[0].user);
      ResolveExtends(s, slots[0].place, slots[0].user);
      if first.result.Ok? {
        ResolveAllInScope(first.state, slots[1..]);
        ResolveAllExtends(first.state, slots[1..]);
      }
    }
  }

  lemma AddCommandSafe(s: State, c: Command<Argument>)
    requires Safe(s) && CommandInScope(c, |s.inputs|, |s.commands|)
    ensures Safe(AddCommand(s, c))
  {
    var t := AddCommand(s, c);
    forall k | 0 <= k < |t.commands| ensures CommandInScope(t.commands[k], |t.inputs|, k) {
      if k < |s.commands| { assert CommandInScope(s.commands[k], |s.inputs|, k); }
    }
  }

  lemma SafeExtends(s: State, t: State)
    requires Safe(s) && Extends(s, t) && t.commands == s.commands
    ensures Safe(t)
  {
    forall k | 0 <= k < |t.commands| ensures CommandInScope(t.commands[k], |t.inputs|, k) {
      assert CommandInScope(s.commands[k], |s.inputs|, k);
    }
  }

  lemma BeforeLastSafe(s: State, op: Op, args: seq<Argument>)
    requires Safe(s) && Fits(op, args) && AllInScope(s, args)
    ensures Safe(BeforeLast(op, args, s)) && Extends(s, BeforeLast(op, args, s))
    ensures AllInScope(BeforeLast(op, args, s), args)
  {
    assert forall i :: 0 <= i < |args| ==> args[i] in args;
    if op.OpTransferSui? && op.amount.Some? {
      assert SplitCoin(args[2], [args[1]]).Args() == [args[2], args[1]];
      AddCommandSafe(s, SplitCoin(args[2], [args[1]]));
    }
  }

  lemma ExecSafe(s: State, op: Op)
    requires Safe(s) && OpInScope(s, op)
    ensures Safe(Exec(s, op).state)
    ensures Exec(s, op).result.Ok? ==> AllInScope(Exec(s, op).state, Exec(s, op).result.value)
  {
    var o := ResolveAll(s, Slots(op));
    ResolveAllExtends(s, Slots(op));
    ResolveAllInScope(s, Slots(op));
    SafeExtends(s, o.state);
    if o.result.Ok? {
      var args := o.result.value;
      var ready := BeforeLast(op, args, o.state);
      BeforeLastSafe(o.state, op, args);
      MakeInScope(s, op, args, ready);
      AddCommandSafe(ready, Make(op, args, |ready.commands|));
    }
  }

  lemma MakeInScope(s: State, op: Op, args: seq<Argument>, ready: State)
    requires Fits(op, args) && AllInScope(ready, args) && OpInScope(s, op)
    requires |s.inputs| <= |ready.inputs| && |s.commands| <= |ready.commands|
    requires op.OpTransferSui? && op.amount.Some? ==> |ready.commands| > 0
    ensures CommandInScope(Make(op, args, |ready.commands|), |ready.inputs|, |ready.commands|)
  {
    var last := Make(op, args, |ready.commands|);
    assert forall i :: 0 <= i < |args| ==> args[i] in args;
    forall a | a in last.Args() ensures InScope(ready, a) {
      if op.OpCommitUpgrade? { assert a == op.capArg || a == op.receipt; }
      else if op.OpPublishUpgrade? { assert a == op.ticket; }
      else if op.OpTransferSui? { assert last.Args() == last.objects + [args[0]]; }
      else { assert a in args; }
    }
  }

  /** In every state reached from a safe one, no reference dangles and none looks forward. */
  lemma {:induction false} RunSafe(s: State, turns: seq<Turn>)
    requires Safe(s) && RunInScope(s, turns)
    ensures Safe(Run(s, turns))
    decreases |turns|
  {
    if turns != [] {
      TakeSafe(s, turns[0]);
      RunSafe(Take(s, turns[0]).state, turns[1..]);
    }
  }

  lemma TakeSafe(s: State, turn: Turn)
    requires Safe(s) && TurnInScope(s, turn)
    ensures Safe(Take(s, turn).state)
    ensures Take(s, turn).result.Ok? ==> AllInScope(Take(s, turn).state, Take(s, turn).result.value)
  {
    match turn
    case Call(op) => ExecSafe(s, op);
    case Register(p, u) =>
      ResolveExtends(s, p, u);
      ResolveInScope(s, p, u);
      SafeExtends(s, Resolve(s, p, u).state);
  }

  // ---- the command counts --------------------------------------------------

  predicate OfKind(c: Command<Argument>, k: Kind) {
    match k
    case KMoveCall => c.MoveCall?
    case KTransferObjects => c.TransferObjects?
    case KSplitCoin => c.SplitCoin?
    case KMergeCoins => c.MergeCoins?
    case KPublish => c.Publish?
    case KMakeMoveVec => c.MakeMoveVec?
    case KUpgrade => c.Upgrade?
  }

  /** How many of the commands have that constructor. */
  function CountKind(cs: seq<Command<Argument>>, k: Kind): nat {
    if cs == [] then 0 else CountKind(cs[..|cs| - 1], k) + (if OfKind(cs[|cs| - 1], k) then 1 else 0)
  }

  ghost predicate CountsAgree(s: State) {
    forall k :: k in s.frequency && s.frequency[k] == CountKind(s.commands, k)
  }

  lemma AddCommandCounts(s: State, c: Command<Argument>)
    requires CountsAgree(s)
    ensures CountsAgree(AddCommand(s, c))
  {
    assert (s.commands + [c])[..|s.commands|] == s.commands;
    forall k ensures OfKind(c, k) <==> k == KindOf(c) { KindIs(c, k); }
  }

  lemma KindIs(c: Command<Argument>, k: Kind)
    ensures OfKind(c, k) <==> k == KindOf(c)
  {
  }

  lemma ExecCounts(s: State, op: Op)
    requires CountsAgree(s)
    ensures CountsAgree(Exec(s, op).state)
  {
    var o := ResolveAll(s, Slots(op));
    ResolveAllExtends(s, Slots(op));
    if o.result.Ok? {
      var ready := BeforeLast(op, o.result.value, o.state);
      if ready != o.state { AddCommandCounts(o.state, SplitCoin(o.result.value[2], [o.result.value[1]])); }
      AddCommandCounts(ready, Make(op, o.result.value, |ready.commands|));
    }
  }

  lemma TakeCounts(s: State, turn: Turn)
    requires CountsAgree(s)
    ensures CountsAgree(Take(s, turn).state)
  {
    match turn
    case Call(op) => ExecCounts(s, op);
    case Register(p, u) => ResolveExtends(s, p, u);
  }

  lemma {:induction false} RunCounts(s: State, turns: seq<Turn>)
    requires CountsAgree(s)
    ensures CountsAgree(Run(s, turns))
    decreases |turns|
  {
    if turns != [] {
      TakeCounts(s, turns[0]);
      RunCounts(Take(s, turns[0]).state, turns[1..]);
    }
  }

  lemma InitCounts(compress: bool)
    ensures CountsAgree(Init(compress)) && Safe(Init(compress))
  {
    forall k: Kind ensures k in Init(compress).frequency && Init(compress).frequency[k] == 0 {
      match k case KMoveCall => case KTransferObjects => case KSplitCoin => case KMergeCoins =>
              case KPublish => case KMakeMoveVec => case KUpgrade =>
    }
  }

  // ---- the object registry -------------------------------------------------

  /** Some input is keyed by that object id. */
  predicate HasObject(s: State, id: string) {
    exists i :: 0 <= i < |s.inputs| && NamesObject(s.inputs[i].key, id)
  }

  /** An id is registered exactly when some object input, deferred or resolved, has it. */
  ghost predicate RegistryAgrees(s: State) {
    forall id :: id in s.registry <==> HasObject(s, id)
  }

  lemma AddEntryObjects(s: State, key: BuilderArg, arg: CallArg, id: string)
    ensures HasObject(AddEntry(s, key, arg), id) <==> HasObject(s, id) || NamesObject(key, id)
  {
    var t := AddEntry(s, key, arg);
    if HasObject(s, id) {
      var i :| 0 <= i < |s.inputs| && NamesObject(s.inputs[i].key, id);
      assert NamesObject(t.inputs[i].key, id);
    }
    if NamesObject(key, id) { assert NamesObject(t.inputs[|s.inputs|].key, id); }
  }

  /** A new entry together with the registration of what its key names. */
  lemma EntryRegistered(s: State, e: Entry, t: State)
    requires RegistryAgrees(s) && t.inputs == s.inputs + [e]
    requires forall id :: id in t.registry <==> id in s.registry || NamesObject(e.key, id)
    ensures RegistryAgrees(t)
  {
    forall id ensures id in t.registry <==> HasObject(t, id) {
      AddEntryObjects(s, e.key, e.arg, id);
      assert HasObject(t, id) <==> HasObject(AddEntry(s, e.key, e.arg), id);
    }
  }

  lemma InputObjRegistry(s: State, key: BuilderArg, target: ObjectTarget)
    requires RegistryAgrees(s)
    ensures RegistryAgrees(InputObj(s, key, target).state)
  {
    var t := InputObj(s, key, target).state;
    if |t.inputs| > |s.inputs| { EntryRegistered(s, t.inputs[|s.inputs|], t); }
  }

  lemma ResolveRegistry(s: State, p: Place, u: UserArg)
    requires RegistryAgrees(s)
    ensures RegistryAgrees(Resolve(s, p, u).state)
  {
    if u.AUnresolved? { InputObjRegistry(s, KUnresolved(SuiId(u.u.id)), Later(u.u.(id := SuiId(u.u.id)))); }
    else if u.AObject? { InputObjRegistry(s, KObject(u.o.Id()), Known(u.o)); }
    else if u.AKeyed? { InputObjRegistry(s, u.key, u.target); }
    else {
      var t := Resolve(s, p, u).state;
      if |t.inputs| > |s.inputs| { EntryRegistered(s, t.inputs[|s.inputs|], t); }
    }
  }

  lemma {:induction false} ResolveAllRegistry(s: State, slots: seq<Slot>)
    requires RegistryAgrees(s)
    ensures RegistryAgrees(ResolveAll(s, slots).state)
    decreases |slots|
  {
    if slots != [] {
      ResolveRegistry(s, slots[0].place, slots[0].user);
      var first := Resolve(s, slots[0].place, slots[0].user);
      if first.result.Ok? { ResolveAllRegistry(first.state, slots[1..]); }
    }
  }

  lemma ExecRegistry(s: State, op: Op)
    requires RegistryAgrees(s)
    ensures RegistryAgrees(Exec(s, op).state)
  {
    ResolveAllRegistry(s, Slots(op));
    var t, r := Exec(s, op).state, ResolveAll(s, Slots(op)).state;
    assert t.inputs == r.inputs && t.registry == r.registry;
    forall id ensures id in t.registry <==> HasObject(t, id) { assert HasObject(t, id) <==> HasObject(r, id); }
  }

  lemma TakeRegistry(s: State, turn: Turn)
    requires RegistryAgrees(s)
    ensures RegistryAgrees(Take(s, turn).state)
  {
    match turn
    case Call(op) => ExecRegistry(s, op);
    case Register(p, u) => ResolveRegistry(s, p, u);
  }

  lemma {:induction false} RunRegistry(s: State, turns: seq<Turn>)
    requires RegistryAgrees(s)
    ensures RegistryAgrees(Run(s, turns))
    decreases |turns|
  {
    if turns != [] {
      TakeRegistry(s, turns[0]);
      RunRegistry(Take(s, turns[0]).state, turns[1..]);
    }
  }

  /** The membership test before the duplicate scan never changes the scan's answer. */
  lemma RegistryTestIsRedundant(s: State, id: string)
    requires RegistryAgrees(s)
    ensures (if id in s.registry then FindObject(s.inputs, id, 0) else None) == FindObject(s.inputs, id, 0)
  {
    FindObjectFinds(s.inputs, id, 0);
  }

  // ---- keys name what they stand for ---------------------------------------

  /** Keys name the object they stand for. */
  predicate KeyMatches(key: BuilderArg, arg: CallArg) {
    match key
    case KPure(d) => arg == Pure(d)
    case KObject(a) => arg.Object? && arg.obj.Id() == a
    case KUnresolved(name) => arg.UnresolvedObject? && arg.unres.id == name
    case KWithdrawal(w) => arg == FundsWithdrawal(w)
    case KForced => false
  }

  ghost predicate KeysMatch(s: State) {
    forall i :: 0 <= i < |s.inputs| ==> KeyMatches(s.inputs[i].key, s.inputs[i].arg)
  }

  /** An explicit key names the object it comes with. */
  predicate HonestKey(u: UserArg) {
    u.AKeyed? ==>
      match u.target
      case Known(o) => u.key.KObject? ==> u.key.id == o.Id()
      case Later(x) => u.key.KUnresolved? ==> u.key.name == x.id
  }

  predicate HonestKeys(op: Op) {
    forall i :: 0 <= i < |Slots(op)| ==> HonestKey(Slots(op)[i].user)
  }

  lemma ResolveKeysMatch(s: State, p: Place, u: UserArg)
    requires KeysMatch(s) && HonestKey(u)
    ensures KeysMatch(Resolve(s, p, u).state)
  {
  }

  lemma {:induction false} ResolveAllKeysMatch(s: State, op: Op, slots: seq<Slot>)
    requires KeysMatch(s) && HonestKeys(op) && forall x :: x in slots ==> x in Slots(op)
    ensures KeysMatch(ResolveAll(s, slots).state)
    decreases |slots|
  {
    if slots != [] {
      assert slots[0] in Slots(op);
      ResolveKeysMatch(s, slots[0].place, slots[0].user);
      var first := Resolve(s, slots[0].place, slots[0].user);
      if first.result.Ok? { ResolveAllKeysMatch(first.state, op, slots[1..]); }
    }
  }

  predicate HonestTurn(turn: Turn) {
    match turn
    case Call(op) => HonestKeys(op)
    case Register(_, u) => HonestKey(u)
  }

  lemma TakeKeysMatch(s: State, turn: Turn)
    requires KeysMatch(s) && HonestTurn(turn)
    ensures KeysMatch(Take(s, turn).state)
  {
    match turn
    case Call(op) =>
      ResolveAllKeysMatch(s, op, Slots(op));
      assert Exec(s, op).state.inputs == ResolveAll(s, Slots(op)).state.inputs;
    case Register(p, u) => ResolveKeysMatch(s, p, u);
  }

  lemma {:induction false} RunKeysMatch(s: State, turns: seq<Turn>)
    requires KeysMatch(s) && forall turn :: turn in turns ==> HonestTurn(turn)
    ensures KeysMatch(Run(s, turns))
    decreases |turns|
  {
    if turns != [] {
      TakeKeysMatch(s, turns[0]);
      RunKeysMatch(Take(s, turns[0]).state, turns[1..]);
    }
  }

  // ---- a compressing builder has no duplicates -----------------------------

  /** Equal pure inputs, equal resolved objects, and deferred inputs with one id. */
  predicate Duplicates(d: Entry, e: Entry) {
    || (d.arg.Pure? && d.arg == e.arg)
    || (d.arg.Object? && d.arg == e.arg)
    || (d.key.KUnresolved? && d.key == e.key)
  }

  ghost predicate NoDuplicates(s: State) {
    forall i, j :: 0 <= i < j < |s.inputs| ==> !Duplicates(s.inputs[i], s.inputs[j])
  }

  lemma NewEntryIsNew(s: State, p: Place, u: UserArg, e: Entry)
    requires s.compress && RegistryAgrees(s) && NoDuplicates(s)
    requires |Resolve(s, p, u).state.inputs| > |s.inputs| && e == Resolve(s, p, u).state.inputs[|s.inputs|]
    ensures forall i :: 0 <= i < |s.inputs| ==> !Duplicates(s.inputs[i], e)
  {
    FindArgFinds(s.inputs, e.arg, 0);
    if e.key.KUnresolved? {
      FindObjectFinds(s.inputs, e.key.name, 0);
      RegistryTestIsRedundant(s, e.key.name);
    }
    forall i | 0 <= i < |s.inputs| ensures !Duplicates(s.inputs[i], e) {
      assert e.key.KUnresolved? ==> !NamesObject(s.inputs[i].key, e.key.name);
    }
  }

  lemma ResolveNoDuplicates(s: State, p: Place, u: UserArg)
    requires s.compress && RegistryAgrees(s) && NoDuplicates(s)
    ensures NoDuplicates(Resolve(s, p, u).state)
  {
    var t := Resolve(s, p, u).state;
    if |t.inputs| > |s.inputs| {
      var e := t.inputs[|s.inputs|];
      NewEntryIsNew(s, p, u, e);
      assert t.inputs == s.inputs + [e];
    }
  }

  lemma {:induction false} ResolveAllNoDuplicates(s: State, slots: seq<Slot>)
    requires s.compress && RegistryAgrees(s) && NoDuplicates(s)
    ensures NoDuplicates(ResolveAll(s, slots).state)
    decreases |slots|
  {
    if slots != [] {
      var first := Resolve(s, slots[0].place, slots[0].user);
      ResolveRegistry(s, slots[0].place, slots[0].user);
      ResolveNoDuplicates(s, slots[0].place, slots[0].user);
      ResolveExtends(s, slots[0].place, slots[0].user);
      if first.result.Ok? { ResolveAllNoDuplicates(first.state, slots[1..]); }
    }
  }

  lemma TakeNoDuplicates(s: State, turn: Turn)
    requires s.compress && RegistryAgrees(s) && NoDuplicates(s)
    ensures NoDuplicates(Take(s, turn).state)
  {
    match turn
    case Call(op) =>
      ResolveAllNoDuplicates(s, Slots(op));
      assert Exec(s, op).state.inputs == ResolveAll(s, Slots(op)).state.inputs;
    case Register(p, u) => ResolveNoDuplicates(s, p, u);
  }

  /** Before resolution no input of a compressing builder repeats an earlier one. */
  lemma {:induction false} RunNoDuplicates(s: State, turns: seq<Turn>)
    requires s.compress && RegistryAgrees(s) && NoDuplicates(s)
    ensures NoDuplicates(Run(s, turns))
    decreases |turns|
  {
    if turns != [] {
      TakeNoDuplicates(s, turns[0]);
      TakeRegistry(s, turns[0]);
      TakeExtends(s, turns[0]);
      RunNoDuplicates(Take(s, turns[0]).state, turns[1..]);
    }
  }
}
