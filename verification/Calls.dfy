// What a command method leaves behind, said of what the caller passed: which input each argument
// becomes, which command is appended with what in each of its fields, and what is returned.

module Calls {
  import opened Base
  import opened Ptb
  import opened BuilderSpec
  import opened BuilderLaws

  // ---- one argument --------------------------------------------------------

  /** A further input, and the argument for it. */
  predicate Appends(s: State, o: Outcome<seq<Argument>>, key: BuilderArg, arg: CallArg) {
    && o.result == Ok([Input(|s.inputs|)])
    && o.state.inputs == s.inputs + [Entry(key, arg)]
    && o.state.commands == s.commands && o.state.compress == s.compress && o.state.frequency == s.frequency
  }

  /** No further input, and the argument for the first one that `same` holds of. */
  ghost predicate Shares(s: State, o: Outcome<seq<Argument>>, same: Entry -> bool) {
    && o.state == s
    && exists i ::
         && 0 <= i < |s.inputs| && o.result == Ok([Input(i)]) && same(s.inputs[i])
         && forall j :: 0 <= j < i ==> !same(s.inputs[j])
  }

  /** A compressing builder shares an equal input, any other appends a new one. */
  ghost predicate PutsValue(s: State, o: Outcome<seq<Argument>>, key: BuilderArg, arg: CallArg) {
    if s.compress && exists i :: 0 <= i < |s.inputs| && s.inputs[i].arg == arg
    then Shares(s, o, (e: Entry) => e.arg == arg)
    else Appends(s, o, key, arg)
  }

  /** ... and of a deferred object it shares the first input with that object id. */
  ghost predicate PutsDeferred(s: State, o: Outcome<seq<Argument>>, x: Unresolved, name: string) {
    if s.compress && HasObject(s, name)
    then Shares(s, o, (e: Entry) => NamesObject(e.key, name))
    else
      && Appends(s, o, KUnresolved(name), UnresolvedObject(x))
      && o.state.registry == s.registry[name := Deferred(x)]
  }

  ghost predicate PutsObject(s: State, o: Outcome<seq<Argument>>, id: Address, obj: ObjectArg) {
    && PutsValue(s, o, KObject(id), Object(obj))
    && o.state.registry ==
       if |o.state.inputs| == |s.inputs| then s.registry
       else s.registry[PrintAddress(id) :=
                         Resolved(if obj.Shared? then "SharedObject"
                                  else if obj.Receiving? then "Receiving" else "ImmOrOwnedObject")]
  }

  /** What the registration of a caller's argument does, exactly. */
  ghost predicate Puts(s: State, u: UserArg, o: Outcome<seq<Argument>>) {
    match u
    case AArgument(a) => o == Outcome(s, Ok([a]))
    case AAbsent => o == Outcome(s, Ok([]))
    case AKey(k) => k.KPure? && PutsValue(s, o, k, Pure(k.data)) && o.state.registry == s.registry
    case APure(d) => PutsValue(s, o, KPure(d), Pure(d)) && o.state.registry == s.registry
    case AObject(obj) => PutsObject(s, o, obj.Id(), obj)
    case AUnresolved(x) => PutsDeferred(s, o, x.(id := SuiId(x.id)), SuiId(x.id))
    case AKeyed(k, Known(obj)) => k.KObject? && PutsObject(s, o, k.id, obj)
    case AKeyed(k, Later(x)) => k.KUnresolved? && PutsDeferred(s, o, x, k.name)
    case AWithdrawal(w) => Appends(s, o, KWithdrawal(w), FundsWithdrawal(w)) && o.state.registry == s.registry
    case AOther => false
  }

  lemma FirstEqual(s: State, arg: CallArg)
    ensures var r := FindArg(s.inputs, arg, 0);
      && (r.Some? <==> exists i :: 0 <= i < |s.inputs| && s.inputs[i].arg == arg)
      && (r.Some? ==> r.value < |s.inputs| && s.inputs[r.value].arg == arg
                      && forall j :: 0 <= j < r.value ==> s.inputs[j].arg != arg)
  {
    FindArgFinds(s.inputs, arg, 0);
    FirstFrom(s.inputs, arg, 0);
  }

  lemma {:induction false} FirstFrom(inputs: seq<Entry>, arg: CallArg, from: nat)
    ensures var r := FindArg(inputs, arg, from);
      r.Some? ==> forall j :: from <= j < r.value && j < |inputs| ==> inputs[j].arg != arg
    decreases |inputs| - from
  {
    if from < |inputs| { FirstFrom(inputs, arg, from + 1); }
  }

  lemma {:induction false} FirstNamed(inputs: seq<Entry>, id: string, from: nat)
    ensures var r := FindObject(inputs, id, from);
      r.Some? ==> forall j :: from <= j < r.value && j < |inputs| ==> !NamesObject(inputs[j].key, id)
    decreases |inputs| - from
  {
    if from < |inputs| { FirstNamed(inputs, id, from + 1); }
  }

  lemma PurePuts(s: State, k: BuilderArg)
    requires k.KPure?
    ensures PutsValue(s, One(InputPure(s, k)), k, Pure(k.data)) && InputPure(s, k).state.registry == s.registry
  {
    FirstEqual(s, Pure(k.data));
  }

  lemma ObjectPuts(s: State, k: BuilderArg, obj: ObjectArg)
    requires k.KObject?
    ensures PutsObject(s, One(InputObj(s, k, Known(obj))), k.id, obj)
  {
    FirstEqual(s, Object(obj));
  }

  lemma DeferredPuts(s: State, k: BuilderArg, x: Unresolved)
    requires RegistryAgrees(s) && k.KUnresolved?
    ensures PutsDeferred(s, One(InputObj(s, k, Later(x))), x, k.name)
  {
    FindObjectFinds(s.inputs, k.name, 0);
    FirstNamed(s.inputs, k.name, 0);
    RegistryTestIsRedundant(s, k.name);
  }

  lemma RegistersExactly(s: State, p: Place, u: UserArg)
    requires RegistryAgrees(s) && Resolve(s, p, u).result.Ok?
    ensures Puts(s, u, Resolve(s, p, u))
  {
    match u
    case AKey(k) => PurePuts(s, k);
    case APure(d) => PurePuts(s, KPure(d));
    case AObject(obj) => ObjectPuts(s, KObject(obj.Id()), obj);
    case AUnresolved(x) => DeferredPuts(s, KUnresolved(SuiId(x.id)), x.(id := SuiId(x.id)));
    case AKeyed(k, Known(obj)) => ObjectPuts(s, k, obj);
    case AKeyed(k, Later(x)) => DeferredPuts(s, k, x);
    case _ =>
  }

  // ---- which arguments are acceptable --------------------------------------

  predicate PureKey(u: UserArg) { u.AKey? && u.key.KPure? }

  predicate KeyedObject(u: UserArg) {
    u.AKeyed? && ((u.key.KObject? && u.target.Known?) || (u.key.KUnresolved? && u.target.Later?))
  }

  predicate IsValue(u: UserArg) { u.AArgument? || PureKey(u) }

  predicate IsObject(u: UserArg) { u.AArgument? || u.AUnresolved? || u.AObject? || KeyedObject(u) }

  predicate IsCap(u: UserArg) { u.AObject? || KeyedObject(u) }

  predicate IsItem(u: UserArg) { IsObject(u) || PureKey(u) }

  predicate IsCallArgument(u: UserArg) { IsItem(u) || u.APure? || u.AWithdrawal? || u.AAbsent? }

  predicate All(us: seq<UserArg>, ok: UserArg -> bool) {
    forall i :: 0 <= i < |us| ==> ok(us[i])
  }

  /** The calls that do not raise. */
  predicate Acceptable(op: Op) {
    match op
    case OpMakeMoveVec(_, items) => All(items, IsItem)
    case OpMoveCall(_, _, _, _, args, _) => All(args, IsCallArgument)
    case OpSplitCoin(coin, amounts) => IsObject(coin) && All(amounts, IsValue)
    case OpMergeCoins(coin, coins) => IsObject(coin) && All(coins, IsObject)
    case OpTransferObjects(recipient, objects) => IsValue(recipient) && All(objects, IsObject)
    case OpTransferSui(recipient, coin, amount) =>
      PureKey(recipient) && IsObject(coin) && (amount.Some? ==> amount.value.KPure?)
    case OpAuthorizeUpgrade(cap, policy, digest) => IsCap(cap) && PureKey(policy) && PureKey(digest)
    case _ => true
  }

  predicate SlotAcceptable(x: Slot) {
    match x.place
    case CallPlace => IsCallArgument(x.user)
    case VectorPlace => IsItem(x.user)
    case ObjectPlace => IsObject(x.user)
    case ValuePlace => IsValue(x.user)
    case CapPlace => IsCap(x.user)
    case KeyPlace => PureKey(x.user)
  }

  lemma SlotSucceeds(s: State, x: Slot)
    ensures Resolve(s, x.place, x.user).result.Ok? <==> SlotAcceptable(x)
  {
  }

  lemma {:induction false} SlotsSucceed(s: State, slots: seq<Slot>)
    ensures ResolveAll(s, slots).result.Ok? <==> forall i :: 0 <= i < |slots| ==> SlotAcceptable(slots[i])
    decreases |slots|
  {
    if slots != [] {
      SlotSucceeds(s, slots[0]);
      var first := Resolve(s, slots[0].place, slots[0].user);
      if first.result.Ok? {
        SlotsSucceed(first.state, slots[1..]);
        assert forall i :: 0 <= i < |slots[1..]| ==> slots[1..][i] == slots[i + 1];
        forall i | 0 <= i < |slots| && forall k :: 0 <= k < |slots[1..]| ==> SlotAcceptable(slots[1..][k])
          ensures SlotAcceptable(slots[i])
        {
          if i > 0 { assert slots[i] == slots[1..][i - 1]; }
        }
      }
    }
  }

  lemma AtAcceptable(p: Place, us: seq<UserArg>, ok: UserArg -> bool)
    requires forall u :: ok(u) <==> SlotAcceptable(Slot(p, u))
    ensures All(us, ok) <==> forall i :: 0 <= i < |us| ==> SlotAcceptable(At(p, us)[i])
  {
    forall i | 0 <= i < |us| ensures ok(us[i]) <==> SlotAcceptable(At(p, us)[i]) {
      assert At(p, us)[i] == Slot(p, us[i]);
    }
    if forall i :: 0 <= i < |us| ==> SlotAcceptable(At(p, us)[i]) {
      forall i | 0 <= i < |us| ensures ok(us[i]) { assert SlotAcceptable(At(p, us)[i]); }
    }
  }

  /** A call succeeds exactly if every argument has a form that its method takes. */
  lemma SucceedsExactly(s: State, op: Op)
    ensures Exec(s, op).result.Ok? <==> Acceptable(op)
  {
    SlotsSucceed(s, Slots(op));
    OpSlots(op);
  }

  lemma OpSlots(op: Op)
    ensures Acceptable(op) <==> forall i :: 0 <= i < |Slots(op)| ==> SlotAcceptable(Slots(op)[i])
  {
    var slots := Slots(op);
    match op
    case OpMakeMoveVec(_, items) => AtAcceptable(VectorPlace, items, IsItem);
    case OpMoveCall(_, _, _, _, args, _) => AtAcceptable(CallPlace, args, IsCallArgument);
    case OpSplitCoin(coin, amounts) =>
      AtAcceptable(ValuePlace, amounts, IsValue);
      OneLast(At(ValuePlace, amounts), Slot(ObjectPlace, coin));
    case OpMergeCoins(coin, coins) =>
      AtAcceptable(ObjectPlace, coins, IsObject);
      OneFirst(Slot(ObjectPlace, coin), At(ObjectPlace, coins));
    case OpTransferObjects(recipient, objects) =>
      AtAcceptable(ObjectPlace, objects, IsObject);
      OneFirst(Slot(ValuePlace, recipient), At(ObjectPlace, objects));
    case OpTransferSui(recipient, coin, amount) =>
      TransferSlots(recipient, coin, amount);
    case OpAuthorizeUpgrade(cap, policy, digest) => AuthorizeSlots(cap, policy, digest);
    case _ =>
  }

  lemma AuthorizeSlots(cap: UserArg, policy: UserArg, digest: UserArg)
    ensures var op := OpAuthorizeUpgrade(cap, policy, digest);
      Acceptable(op) <==> forall i :: 0 <= i < |Slots(op)| ==> SlotAcceptable(Slots(op)[i])
  {
    var slots := Slots(OpAuthorizeUpgrade(cap, policy, digest));
    assert slots[0] == Slot(CapPlace, cap) && slots[1] == Slot(KeyPlace, policy) && slots[2] == Slot(KeyPlace, digest);
    if forall i :: 0 <= i < |slots| ==> SlotAcceptable(slots[i]) {
      assert SlotAcceptable(slots[0]) && SlotAcceptable(slots[1]) && SlotAcceptable(slots[2]);
    }
  }

  lemma TransferSlots(recipient: UserArg, coin: UserArg, amount: Option<BuilderArg>)
    ensures var op := OpTransferSui(recipient, coin, amount);
      Acceptable(op) <==> forall i :: 0 <= i < |Slots(op)| ==> SlotAcceptable(Slots(op)[i])
  {
    var slots := Slots(OpTransferSui(recipient, coin, amount));
    assert slots[0] == Slot(KeyPlace, recipient) && slots[|slots| - 1] == Slot(ObjectPlace, coin);
    if amount.Some? { assert |slots| == 3 && slots[1] == Slot(KeyPlace, AKey(amount.value)); }
    if forall i :: 0 <= i < |slots| ==> SlotAcceptable(slots[i]) {
      assert SlotAcceptable(slots[0]) && SlotAcceptable(slots[1]) && SlotAcceptable(slots[|slots| - 1]);
    }
  }

  lemma OneFirst(x: Slot, xs: seq<Slot>)
    ensures (forall i :: 0 <= i < |[x] + xs| ==> SlotAcceptable(([x] + xs)[i]))
       <==> SlotAcceptable(x) && forall i :: 0 <= i < |xs| ==> SlotAcceptable(xs[i])
  {
    var all := [x] + xs;
    assert all[0] == x && forall i :: 0 <= i < |xs| ==> all[i + 1] == xs[i];
    if forall i :: 0 <= i < |all| ==> SlotAcceptable(all[i]) {
      forall i | 0 <= i < |xs| ensures SlotAcceptable(xs[i]) { assert xs[i] == all[i + 1]; }
    }
  }

  lemma OneLast(xs: seq<Slot>, x: Slot)
    ensures (forall i :: 0 <= i < |xs + [x]| ==> SlotAcceptable((xs + [x])[i]))
       <==> SlotAcceptable(x) && forall i :: 0 <= i < |xs| ==> SlotAcceptable(xs[i])
  {
    var all := xs + [x];
    assert all[|xs|] == x && forall i :: 0 <= i < |xs| ==> all[i] == xs[i];
    if forall i :: 0 <= i < |all| ==> SlotAcceptable(all[i]) {
      forall i | 0 <= i < |xs| ensures SlotAcceptable(xs[i]) { assert xs[i] == all[i]; }
    }
  }

  // ---- what an argument of the command denotes ------------------------------

  predicate Holds(t: State, a: Argument, arg: CallArg) {
    a.Input? && a.index < |t.inputs| && t.inputs[a.index].arg == arg
  }

  /** The deferred object with its flags, or, where inputs are shared, an input with its id. */
  predicate HoldsDeferred(t: State, a: Argument, x: Unresolved) {
    a.Input? && a.index < |t.inputs| &&
    match t.inputs[a.index].arg
    case UnresolvedObject(y) => y == x || (t.compress && y.id == x.id)
    case Object(o) => t.compress && PrintAddress(o.Id()) == x.id
    case _ => false
  }

  /** `a` denotes what the caller passed as `u`. */
  predicate Means(t: State, u: UserArg, a: Argument) {
    match u
    case AArgument(x) => a == x
    case AKey(k) => k.KPure? && Holds(t, a, Pure(k.data))
    case APure(d) => Holds(t, a, Pure(d))
    case AObject(o) => Holds(t, a, Object(o))
    case AUnresolved(x) => HoldsDeferred(t, a, x.(id := SuiId(x.id)))
    case AKeyed(_, Known(o)) => Holds(t, a, Object(o))
    case AKeyed(_, Later(x)) => HoldsDeferred(t, a, x)
    case AWithdrawal(w) => Holds(t, a, FundsWithdrawal(w))
    case _ => false
  }

  predicate MeansAll(t: State, us: seq<UserArg>, args: seq<Argument>) {
    |args| == |us| && forall i :: 0 <= i < |us| ==> Means(t, us[i], args[i])
  }

  /** The arguments that a Move call is left with: an absent optional contributes none. */
  function Present(us: seq<UserArg>): seq<UserArg> {
    if us == [] then [] else (if us[0].AAbsent? then [] else [us[0]]) + Present(us[1..])
  }

  lemma MeansLater(s: State, t: State, u: UserArg, a: Argument)
    requires Means(s, u, a) && Extends(s, t)
    ensures Means(t, u, a)
  {
  }

  lemma ResolveMeans(s: State, p: Place, u: UserArg)
    requires KeysMatch(s) && HonestKey(u) && Resolve(s, p, u).result.Ok?
    ensures var o := Resolve(s, p, u);
      if u.AAbsent? then o.result.value == []
      else |o.result.value| == 1 && Means(o.state, u, o.result.value[0])
  {
    match u
    case AKey(k) => FindArgFinds(s.inputs, Pure(k.data), 0);
    case APure(d) => FindArgFinds(s.inputs, Pure(d), 0);
    case AObject(obj) => FindArgFinds(s.inputs, Object(obj), 0);
    case AUnresolved(x) => DeferredMeans(s, KUnresolved(SuiId(x.id)), x.(id := SuiId(x.id)));
    case AKeyed(k, Known(obj)) => FindArgFinds(s.inputs, Object(obj), 0);
    case AKeyed(k, Later(x)) => DeferredMeans(s, k, x);
    case _ =>
  }

  lemma DeferredMeans(s: State, k: BuilderArg, x: Unresolved)
    requires KeysMatch(s) && k.KUnresolved? && k.name == x.id
    ensures var o := InputObj(s, k, Later(x)); o.result.Ok? && HoldsDeferred(o.state, o.result.value, x)
  {
    FindObjectFinds(s.inputs, k.name, 0);
    var r := FindObject(s.inputs, k.name, 0);
    if r.Some? { assert KeyMatches(s.inputs[r.value].key, s.inputs[r.value].arg); }
  }

  function Users(slots: seq<Slot>): seq<UserArg> {
    MapSeq(slots, (x: Slot) => x.user)
  }

  /** The resolved arguments denote, in order, what the caller passed. */
  lemma {:induction false} ResolveAllMeans(s: State, slots: seq<Slot>)
    requires KeysMatch(s) && ResolveAll(s, slots).result.Ok?
    requires forall i :: 0 <= i < |slots| ==> HonestKey(slots[i].user)
    ensures var o := ResolveAll(s, slots); MeansAll(o.state, Present(Users(slots)), o.result.value)
    decreases |slots|
  {
    if slots != [] {
      var p, u := slots[0].place, slots[0].user;
      var first := Resolve(s, p, u);
      ResolveMeans(s, p, u);
      ResolveKeysMatch(s, p, u);
      ResolveAllMeans(first.state, slots[1..]);
      ResolveAllExtends(first.state, slots[1..]);
      var rest := ResolveAll(first.state, slots[1..]);
      UsersTail(slots);
      MeansJoin(first.state, rest.state, u, first.result.value, Present(Users(slots[1..])), rest.result.value);
    }
  }

  lemma UsersTail(slots: seq<Slot>)
    requires slots != []
    ensures Users(slots)[0] == slots[0].user && Users(slots)[1..] == Users(slots[1..])
  {
  }

  lemma MeansJoin(s: State, t: State, u: UserArg, xs: seq<Argument>, us: seq<UserArg>, ys: seq<Argument>)
    requires Extends(s, t) && MeansAll(t, us, ys)
    requires if u.AAbsent? then xs == [] else |xs| == 1 && Means(s, u, xs[0])
    ensures MeansAll(t, (if u.AAbsent? then [] else [u]) + us, xs + ys)
  {
    if !u.AAbsent? { MeansLater(s, t, u, xs[0]); }
  }

  lemma {:induction false} NoneAbsent(us: seq<UserArg>)
    requires forall i :: 0 <= i < |us| ==> !us[i].AAbsent?
    ensures Present(us) == us
  {
    if us != [] {
      NoneAbsent(us[1..]);
      assert [us[0]] + us[1..] == us;
    }
  }

  // ---- the command ---------------------------------------------------------

  /** The Sui framework package, address 0x2. */
  predicate IsFramework(p: Address) {
    |p| == 32 && p[31] == 2 && forall i :: 0 <= i < 31 ==> p[i] == 0
  }

  predicate UpgradeCall(c: Command<Argument>, name: string) {
    c.MoveCall? && IsFramework(c.package) && c.modul == "package" && c.function_ == name && c.typeArgs == []
  }

  /** The command `c`, at index `k` of the commands, has what the caller passed in its fields. */
  predicate HoldsCall(t: State, op: Op, c: Command<Argument>, k: nat) {
    match op
    case OpMakeMoveVec(typ, items) => c.MakeMoveVec? && c.elemType == typ && MeansAll(t, items, c.elements)
    case OpMoveCall(p, m, f, ts, args, _) =>
      && c.MoveCall? && c.package == p && c.modul == m && c.function_ == f && c.typeArgs == ts
      && MeansAll(t, Present(args), c.args)
    case OpSplitCoin(coin, amounts) => c.SplitCoin? && Means(t, coin, c.fromCoin) && MeansAll(t, amounts, c.amounts)
    case OpMergeCoins(coin, coins) => c.MergeCoins? && Means(t, coin, c.toCoin) && MeansAll(t, coins, c.fromCoins)
    case OpTransferObjects(recipient, objects) =>
      c.TransferObjects? && Means(t, recipient, c.recipient) && MeansAll(t, objects, c.objects)
    case OpTransferSui(recipient, coin, amount) =>
      && c.TransferObjects? && Means(t, recipient, c.recipient) && |c.objects| == 1
      && if amount.None? then Means(t, coin, c.objects[0])
         else
           && 0 < k <= |t.commands| && c.objects[0] == Argument.Result(k - 1)
           && var split := t.commands[k - 1];
              split.SplitCoin? && Means(t, coin, split.fromCoin) && MeansAll(t, [AKey(amount.value)], split.amounts)
    case OpPublish(ms, ds) => c == Publish(ms, ds)
    case OpAuthorizeUpgrade(cap, policy, digest) =>
      UpgradeCall(c, "authorize_upgrade") && MeansAll(t, [cap, policy, digest], c.args)
    case OpPublishUpgrade(ms, ds, p, ticket) => c == Upgrade(ms, ds, p, ticket)
    case OpCommitUpgrade(cap, receipt) => UpgradeCall(c, "commit_upgrade") && c.args == [cap, receipt]
  }

  /** How many results the call has: as many as asked for, or as there are amounts, or one. */
  function Parts(op: Op): nat {
    if op.OpMoveCall? then op.resCount else if op.OpSplitCoin? then |op.amounts| else 1
  }

  /** The arguments returned name the command, or each of its parts in order. */
  predicate Names(r: seq<Argument>, k: nat, parts: nat) {
    if parts > 1 then |r| == parts && forall i :: 0 <= i < parts ==> r[i] == NestedResult(k, i)
    else r == [Argument.Result(k)]
  }

  /** A call that succeeds appends one command, or a split and a transfer, with what the caller passed in
      its fields, and returns the arguments that name it. */
  lemma CallHolds(s: State, op: Op, o: Outcome<seq<Argument>>, k: nat)
    requires KeysMatch(s) && HonestKeys(op) && o == Exec(s, op) && o.result.Ok?
    requires k == |s.commands| + if op.OpTransferSui? && op.amount.Some? then 1 else 0
    ensures |o.state.commands| == k + 1 && s.commands <= o.state.commands
    ensures HoldsCall(o.state, op, o.state.commands[k], k)
    ensures Names(o.result.value, k, Parts(op))
  {
    var slots := Slots(op);
    var r := ResolveAll(s, slots);
    ResolveAllMeans(s, slots);
    ResolveAllExtends(s, slots);
    SlotsSucceed(s, slots);
    OpSlots(op);
    MakeHolds(s, op, r.state, r.result.value, o.state, k);
  }

  lemma UsersAt(p: Place, us: seq<UserArg>)
    ensures Users(At(p, us)) == us
  {
  }

  /** Only a Move call may be handed an absent argument. */
  lemma NothingAbsent(op: Op)
    requires !op.OpMoveCall? && Acceptable(op)
    ensures Present(Users(Slots(op))) == Users(Slots(op))
  {
    OpSlots(op);
    var slots := Slots(op);
    forall i | 0 <= i < |slots| ensures !Users(slots)[i].AAbsent? { assert SlotAcceptable(slots[i]); }
    NoneAbsent(Users(slots));
  }

  /** What each slot's argument denotes. */
  lemma SlotMeans(m: State, slots: seq<Slot>, args: seq<Argument>, i: nat)
    requires MeansAll(m, Users(slots), args) && i < |slots|
    ensures |args| == |slots| && Means(m, slots[i].user, args[i])
  {
    assert Users(slots)[i] == slots[i].user;
  }

  lemma SplitHolds(m: State, op: Op, args: seq<Argument>, k: nat)
    requires op.OpSplitCoin? && MeansAll(m, Users(Slots(op)), args)
    ensures Fits(op, args) && HoldsCall(m, op, Make(op, args, k), k)
  {
    var n, slots := |op.amounts|, Slots(op);
    SlotMeans(m, slots, args, n);
    forall i | 0 <= i < n ensures Means(m, op.amounts[i], args[..n][i]) {
      SlotMeans(m, slots, args, i);
      assert slots[i].user == op.amounts[i];
    }
  }

  lemma MergeHolds(m: State, op: Op, args: seq<Argument>, k: nat)
    requires op.OpMergeCoins? && MeansAll(m, Users(Slots(op)), args)
    ensures Fits(op, args) && HoldsCall(m, op, Make(op, args, k), k)
  {
    var slots := Slots(op);
    SlotMeans(m, slots, args, 0);
    forall i | 0 <= i < |op.fromCoins| ensures Means(m, op.fromCoins[i], args[1..][i]) {
      SlotMeans(m, slots, args, i + 1);
      assert slots[i + 1].user == op.fromCoins[i];
    }
  }

  lemma TransferHolds(m: State, op: Op, args: seq<Argument>, k: nat)
    requires op.OpTransferObjects? && MeansAll(m, Users(Slots(op)), args)
    ensures Fits(op, args) && HoldsCall(m, op, Make(op, args, k), k)
  {
    var slots := Slots(op);
    SlotMeans(m, slots, args, 0);
    forall i | 0 <= i < |op.objects| ensures Means(m, op.objects[i], args[1..][i]) {
      SlotMeans(m, slots, args, i + 1);
      assert slots[i + 1].user == op.objects[i];
    }
  }

  lemma TransferSuiHolds(m: State, t: State, op: Op, args: seq<Argument>, k: nat)
    requires op.OpTransferSui? && MeansAll(m, Users(Slots(op)), args)
    requires t.inputs == m.inputs && t.compress == m.compress
    requires op.amount.Some? ==>
      |args| == 3 && 0 < k <= |t.commands| && t.commands[k - 1] == SplitCoin(args[2], [args[1]])
    ensures Fits(op, args) && HoldsCall(t, op, Make(op, args, k), k)
  {
    var slots := Slots(op);
    SlotMeans(m, slots, args, 0);
    SlotMeans(m, slots, args, 1);
    SlotMeans(m, slots, args, |slots| - 1);
  }

  lemma AuthorizeHolds(m: State, op: Op, args: seq<Argument>, k: nat)
    requires op.OpAuthorizeUpgrade? && MeansAll(m, Users(Slots(op)), args)
    ensures Fits(op, args) && HoldsCall(m, op, Make(op, args, k), k)
  {
    var slots := Slots(op);
    assert Users(slots) == [op.cap, op.policy, op.digest];
  }

  /** Every operation but the transfer of SUI, in the state where its arguments are resolved. */
  lemma OneHolds(m: State, op: Op, args: seq<Argument>, k: nat)
    requires !op.OpTransferSui? && Acceptable(op) && MeansAll(m, Present(Users(Slots(op))), args)
    ensures Fits(op, args) && HoldsCall(m, op, Make(op, args, k), k)
  {
    if !op.OpMoveCall? { NothingAbsent(op); }
    match op
    case OpMakeMoveVec(_, items) => UsersAt(VectorPlace, items);
    case OpMoveCall(_, _, _, _, us, _) => UsersAt(CallPlace, us);
    case OpSplitCoin(_, _) => SplitHolds(m, op, args, k);
    case OpMergeCoins(_, _) => MergeHolds(m, op, args, k);
    case OpTransferObjects(_, _) => TransferHolds(m, op, args, k);
    case OpAuthorizeUpgrade(_, _, _) => AuthorizeHolds(m, op, args, k);
    case _ =>
  }

  /** What arguments denote depends on the inputs only. */
  lemma HoldsSame(m: State, t: State, op: Op, c: Command<Argument>, k: nat)
    requires t.inputs == m.inputs && t.compress == m.compress && !op.OpTransferSui?
    requires HoldsCall(m, op, c, k)
    ensures HoldsCall(t, op, c, k)
  {
  }

  /** The commands after the call. */
  lemma CommandsAfter(s: State, op: Op, m: State, args: seq<Argument>, t: State, k: nat)
    requires ResolveAll(s, Slots(op)) == Outcome(m, Ok(args)) && m.commands == s.commands && t == Exec(s, op).state
    requires k == |s.commands| + if op.OpTransferSui? && op.amount.Some? then 1 else 0
    ensures t.inputs == m.inputs && t.compress == m.compress && |t.commands| == k + 1 && s.commands <= t.commands
    ensures op.OpTransferSui? && op.amount.Some? ==>
      |args| == 3 && t.commands[k - 1] == SplitCoin(args[2], [args[1]])
    ensures Fits(op, args) && t.commands[k] == Make(op, args, k)
  {
  }

  lemma MakeHolds(s: State, op: Op, m: State, args: seq<Argument>, t: State, k: nat)
    requires ResolveAll(s, Slots(op)) == Outcome(m, Ok(args)) && m.commands == s.commands && Acceptable(op)
    requires MeansAll(m, Present(Users(Slots(op))), args)
    requires t == Exec(s, op).state && k == |s.commands| + if op.OpTransferSui? && op.amount.Some? then 1 else 0
    ensures |t.commands| == k + 1 && s.commands <= t.commands && HoldsCall(t, op, t.commands[k], k)
  {
    CommandsAfter(s, op, m, args, t, k);
    if op.OpTransferSui? {
      NothingAbsent(op);
      TransferSuiHolds(m, t, op, args, k);
    } else {
      OneHolds(m, op, args, k);
      HoldsSame(m, t, op, t.commands[k], k);
    }
  }
}
