// The transaction builder as a state machine on values: what every method does to the inputs,
// the commands, the object registry and the command counts. The class in Builder.dfy keeps this
// state in its fields; the laws of BuilderLaws.dfy are about runs of it.

module BuilderSpec {
  import opened Base
  import opened Ptb

  /** A key of the inputs dictionary. Keys compare by identity, so every key passed is a new one. */
  datatype BuilderArg =
    | KObject(id: Address)
    | KPure(data: bytes)
    | KForced
    | KWithdrawal(funds: Withdrawal)
    | KUnresolved(name: string)

  datatype Entry = Entry(key: BuilderArg, arg: CallArg)

  datatype RegEntry = Resolved(variant: string) | Deferred(unres: Unresolved)

  datatype Kind =
    | KMoveCall | KTransferObjects | KSplitCoin | KMergeCoins | KPublish | KMakeMoveVec | KUpgrade

  function KindOf(c: Command<Argument>): Kind {
    match c
    case MoveCall(_, _, _, _, _) => KMoveCall
    case TransferObjects(_, _) => KTransferObjects
    case SplitCoin(_, _) => KSplitCoin
    case MergeCoins(_, _) => KMergeCoins
    case Publish(_, _) => KPublish
    case MakeMoveVec(_, _) => KMakeMoveVec
    case Upgrade(_, _, _, _) => KUpgrade
  }

  datatype State = State(
    compress: bool,
    inputs: seq<Entry>,
    commands: seq<Command<Argument>>,
    registry: map<string, RegEntry>,
    frequency: map<Kind, nat>)

  const ZERO_COUNTS: map<Kind, nat> :=
    map[KMoveCall := 0, KTransferObjects := 0, KSplitCoin := 0, KMergeCoins := 0, KPublish := 0,
        KMakeMoveVec := 0, KUpgrade := 0]

  function Init(compress: bool): State {
    State(compress, [], [], map[], ZERO_COUNTS)
  }

  function CallArgs(s: State): seq<CallArg> {
    MapSeq(s.inputs, (e: Entry) => e.arg)
  }

  /** A state together with what the call returned or raised. */
  datatype Outcome<+T> = Outcome(state: State, result: Base.Result<T>)

  // ---- inputs --------------------------------------------------------------

  /** The first input whose call argument is `arg`. */
  function FindArg(inputs: seq<Entry>, arg: CallArg, from: nat): Option<nat>
    decreases |inputs| - from
  {
    if from >= |inputs| then None
    else if inputs[from].arg == arg then Some(from)
    else FindArg(inputs, arg, from + 1)
  }

  predicate NamesObject(key: BuilderArg, id: string) {
    match key
    case KUnresolved(n) => n == id
    case KObject(a) => PrintAddress(a) == id
    case _ => false
  }

  /** The first object input, deferred or resolved, with that id. */
  function FindObject(inputs: seq<Entry>, id: string, from: nat): Option<nat>
    decreases |inputs| - from
  {
    if from >= |inputs| then None
    else if NamesObject(inputs[from].key, id) then Some(from)
    else FindObject(inputs, id, from + 1)
  }

  function VariantName(o: ObjectArg): string {
    match o
    case ImmOrOwned(_) => "ImmOrOwnedObject"
    case Shared(_, _, _) => "SharedObject"
    case Receiving(_) => "Receiving"
  }

  function AddEntry(s: State, key: BuilderArg, arg: CallArg): State {
    s.(inputs := s.inputs + [Entry(key, arg)])
  }

  /** `input_pure`. */
  function InputPure(s: State, key: BuilderArg): Outcome<Argument> {
    if !key.KPure? then Outcome(s, Err("expected a pure key"))
    else
      var dup := if s.compress then FindArg(s.inputs, Pure(key.data), 0) else None;
      if dup.Some? then Outcome(s, Ok(Input(dup.value)))
      else Outcome(AddEntry(s, key, Pure(key.data)), Ok(Input(|s.inputs|)))
  }

  datatype ObjectTarget = Known(obj: ObjectArg) | Later(unres: Unresolved)

  /** `input_obj`. */
  function InputObj(s: State, key: BuilderArg, target: ObjectTarget): Outcome<Argument> {
    if key.KObject? && target.Known? then
      var dup := if s.compress then FindArg(s.inputs, Object(target.obj), 0) else None;
      if dup.Some? then Outcome(s, Ok(Input(dup.value)))
      else Outcome(
        AddEntry(s, key, Object(target.obj))
          .(registry := s.registry[PrintAddress(key.id) := Resolved(VariantName(target.obj))]),
        Ok(Input(|s.inputs|)))
    else if key.KUnresolved? && target.Later? then
      var dup := if s.compress && key.name in s.registry then FindObject(s.inputs, key.name, 0) else None;
      if dup.Some? then Outcome(s, Ok(Input(dup.value)))
      else Outcome(
        AddEntry(s, key, UnresolvedObject(target.unres)).(registry := s.registry[key.name := Deferred(target.unres)]),
        Ok(Input(|s.inputs|)))
    else Outcome(s, Err("expected an object key and argument"))
  }

  /** `input_obj_from_objarg`. */
  function InputKnown(s: State, o: ObjectArg): Outcome<Argument> {
    InputObj(s, KObject(o.Id()), Known(o))
  }

  /** `input_obj_from_unresolved_object`: the id is padded before it becomes the key. */
  function InputLater(s: State, u: Unresolved): Outcome<Argument> {
    InputObj(s, KUnresolved(SuiId(u.id)), Later(u.(id := SuiId(u.id))))
  }

  /** `input_obj_from_withdrawal`: never shared. */
  function InputWithdrawal(s: State, w: Withdrawal): Outcome<Argument> {
    Outcome(AddEntry(s, KWithdrawal(w), FundsWithdrawal(w)), Ok(Input(|s.inputs|)))
  }

  // ---- resolving what a caller passed --------------------------------------

  datatype UserArg =
    | AArgument(a: Argument)
    | AKey(key: BuilderArg)
    | AUnresolved(u: Unresolved)
    | AObject(o: ObjectArg)
    | AKeyed(key: BuilderArg, target: ObjectTarget)
    | APure(data: bytes)
    | AWithdrawal(w: Withdrawal)
    | AAbsent
    | AOther

  /** Where a user argument stands: each method accepts some of the forms and raises on the rest. */
  datatype Place = CallPlace | VectorPlace | ObjectPlace | ValuePlace | CapPlace | KeyPlace

  predicate Accepts(p: Place, u: UserArg) {
    match u
    case AArgument(_) => !p.CapPlace? && !p.KeyPlace?
    case AKey(_) => p.CallPlace? || p.VectorPlace? || p.ValuePlace? || p.KeyPlace?
    case AUnresolved(_) => p.CallPlace? || p.VectorPlace? || p.ObjectPlace?
    case AObject(_) => p.CallPlace? || p.VectorPlace? || p.ObjectPlace? || p.CapPlace?
    case AKeyed(_, _) => p.CallPlace? || p.VectorPlace? || p.ObjectPlace? || p.CapPlace?
    case APure(_) => p.CallPlace?
    case AWithdrawal(_) => p.CallPlace?
    case AAbsent => p.CallPlace?
    case AOther => false
  }

  /** One argument; an absent optional contributes none. */
  function Resolve(s: State, p: Place, u: UserArg): Outcome<seq<Argument>> {
    if !Accepts(p, u) then Outcome(s, Err("unknown argument"))
    else
      match u
      case AArgument(a) => Outcome(s, Ok([a]))
      case AAbsent => Outcome(s, Ok([]))
      case AKey(k) => One(InputPure(s, k))
      case APure(d) => One(InputPure(s, KPure(d)))
      case AUnresolved(x) => One(InputLater(s, x))
      case AObject(o) => One(InputKnown(s, o))
      case AKeyed(k, t) => One(InputObj(s, k, t))
      case AWithdrawal(w) => One(InputWithdrawal(s, w))
  }

  function One(o: Outcome<Argument>): Outcome<seq<Argument>> {
    Outcome(o.state, match o.result case Ok(a) => Ok([a]) case Err(e) => Err(e))
  }

  /** A user argument with the place it stands in. */
  datatype Slot = Slot(place: Place, user: UserArg)

  function Append(args: seq<Argument>, r: Base.Result<seq<Argument>>): Base.Result<seq<Argument>> {
    match r
    case Ok(more) => Ok(args + more)
    case Err(e) => Err(e)
  }

  /** The arguments of a method in the order in which it resolves them; an exception stops it, and
      what was registered before stays registered. */
  function ResolveAll(s: State, slots: seq<Slot>): (o: Outcome<seq<Argument>>)
    ensures o.result.Ok? && (forall i :: 0 <= i < |slots| ==> !slots[i].place.CallPlace?) ==>
      |o.result.value| == |slots|
    decreases |slots|
  {
    if slots == [] then Outcome(s, Ok([]))
    else
      var first := Resolve(s, slots[0].place, slots[0].user);
      if first.result.Err? then first
      else
        var rest := ResolveAll(first.state, slots[1..]);
        Outcome(rest.state, Append(first.result.value, rest.result))
  }

  // ---- commands ------------------------------------------------------------

  /** The result arguments: one `Result`, or a `NestedResult` for each of several. */
  function Results(index: nat, nresults: nat): seq<Argument> {
    if nresults > 1 then seq(nresults, i requires 0 <= i < nresults => NestedResult(index, i))
    else [Argument.Result(index)]
  }

  /** `command`. */
  function AddCommand(s: State, c: Command<Argument>): State {
    var n := if KindOf(c) in s.frequency then s.frequency[KindOf(c)] else 0;
    s.(commands := s.commands + [c], frequency := s.frequency[KindOf(c) := n + 1])
  }

  /** One call of a command method. */
  datatype Op =
    | OpMakeMoveVec(elemType: Option<TypeTag>, items: seq<UserArg>)
    | OpMoveCall(package: Address, modul: string, function_: string, typeArgs: seq<TypeTag>, args: seq<UserArg>,
                 resCount: nat)
    | OpSplitCoin(fromCoin: UserArg, amounts: seq<UserArg>)
    | OpMergeCoins(toCoin: UserArg, fromCoins: seq<UserArg>)
    | OpTransferObjects(recipient: UserArg, objects: seq<UserArg>)
    | OpTransferSui(recipient: UserArg, coin: UserArg, amount: Option<BuilderArg>)
    | OpPublish(modules: seq<bytes>, deps: seq<Address>)
    | OpAuthorizeUpgrade(cap: UserArg, policy: UserArg, digest: UserArg)
    | OpPublishUpgrade(modules: seq<bytes>, deps: seq<Address>, package: Address, ticket: Argument)
    | OpCommitUpgrade(capArg: Argument, receipt: Argument)

  function At(p: Place, us: seq<UserArg>): seq<Slot> {
    MapSeq(us, u => Slot(p, u))
  }

  /** The slots an operation resolves, in its own order. */
  function Slots(op: Op): seq<Slot> {
    match op
    case OpMakeMoveVec(_, items) => At(VectorPlace, items)
    case OpMoveCall(_, _, _, _, args, _) => At(CallPlace, args)
    case OpSplitCoin(coin, amounts) => At(ValuePlace, amounts) + [Slot(ObjectPlace, coin)]
    case OpMergeCoins(coin, coins) => [Slot(ObjectPlace, coin)] + At(ObjectPlace, coins)
    case OpTransferObjects(recipient, objects) => [Slot(ValuePlace, recipient)] + At(ObjectPlace, objects)
    case OpTransferSui(recipient, coin, amount) =>
      if amount.Some? then [Slot(KeyPlace, recipient), Slot(KeyPlace, AKey(amount.value)), Slot(ObjectPlace, coin)]
      else [Slot(KeyPlace, recipient), Slot(ObjectPlace, coin)]
    case OpPublish(_, _) => []
    case OpAuthorizeUpgrade(cap, policy, digest) =>
      [Slot(CapPlace, cap), Slot(KeyPlace, policy), Slot(KeyPlace, digest)]
    case OpPublishUpgrade(_, _, _, _) => []
    case OpCommitUpgrade(_, _) => []
  }

  predicate Fits(op: Op, args: seq<Argument>) {
    op.OpMoveCall? || |args| == |Slots(op)|
  }

  /** The last command an operation appends, from its resolved arguments; `index` is where it goes. */
  function Make(op: Op, args: seq<Argument>, index: nat): Command<Argument>
    requires Fits(op, args)
    requires op.OpTransferSui? && op.amount.Some? ==> index > 0
  {
    match op
    case OpMakeMoveVec(t, _) => MakeMoveVec(t, args)
    case OpMoveCall(p, m, f, ts, _, _) => MoveCall(p, m, f, ts, args)
    case OpSplitCoin(_, amounts) => SplitCoin(args[|amounts|], args[..|amounts|])
    case OpMergeCoins(_, _) => MergeCoins(args[0], args[1..])
    case OpTransferObjects(_, _) => TransferObjects(args[1..], args[0])
    case OpTransferSui(_, _, amount) =>
      TransferObjects([if amount.Some? then Argument.Result(index - 1) else args[1]], args[0])
    case OpPublish(ms, ds) => Publish(ms, ds)
    case OpAuthorizeUpgrade(_, _, _) => MoveCall(FRAMEWORK, "package", "authorize_upgrade", [], args)
    case OpPublishUpgrade(ms, ds, p, ticket) => Upgrade(ms, ds, p, ticket)
    case OpCommitUpgrade(cap, receipt) => MoveCall(FRAMEWORK, "package", "commit_upgrade", [], [cap, receipt])
  }

  function ResultCount(op: Op): nat {
    match op
    case OpMoveCall(_, _, _, _, _, n) => n
    case OpSplitCoin(_, amounts) => |amounts|
    case _ => 1
  }

  /** A transfer of an amount first splits it off. */
  function BeforeLast(op: Op, args: seq<Argument>, s: State): State
    requires Fits(op, args)
  {
    if op.OpTransferSui? && op.amount.Some? then AddCommand(s, SplitCoin(args[2], [args[1]])) else s
  }

  /** A whole command method: resolve, then append. */
  function Exec(s: State, op: Op): Outcome<seq<Argument>> {
    var o := ResolveAll(s, Slots(op));
    match o.result
    case Err(e) => Outcome(o.state, Err(e))
    case Ok(args) =>
      var ready := BeforeLast(op, args, o.state);
      Outcome(AddCommand(ready, Make(op, args, |ready.commands|)), Ok(Results(|ready.commands|, ResultCount(op))))
  }

  /** What a caller does: a call of a command method, or an input registered without a command for
      later use, as `withdrawal` does. */
  datatype Turn = Call(op: Op) | Register(place: Place, user: UserArg)

  function Take(s: State, turn: Turn): Outcome<seq<Argument>> {
    match turn
    case Call(op) => Exec(s, op)
    case Register(p, u) => Resolve(s, p, u)
  }

  /** A run of the builder; a caller may catch an exception and go on. */
  function Run(s: State, turns: seq<Turn>): State
    decreases |turns|
  {
    if turns == [] then s else Run(Take(s, turns[0]).state, turns[1..])
  }
}
