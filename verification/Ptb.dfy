// The shapes of a programmable transaction block: its call arguments and its commands.
// A command is generic in what stands at its argument positions, so that the same type
// serves for commands over Arguments and for commands whose arguments have been given a meaning.

module Ptb {
  import opened Base
  import StructTags

  type TypeTag = StructTags.TypeTag

  /** A base58 digest, kept as its text. */
  type Digest = string

  datatype Argument = GasCoin | Input(index: nat) | Result(cmd: nat) | NestedResult(cmd: nat, sub: nat)

  datatype ObjectRef = ObjectRef(id: Address, version: nat, digest: Digest)

  datatype ObjectArg =
    | ImmOrOwned(objRef: ObjectRef)
    | Shared(sharedId: Address, initialVersion: nat, mutable: bool)
    | Receiving(objRef: ObjectRef)
  {
    function Id(): Address {
      if Shared? then sharedId else objRef.id
    }
  }

  /** A deferred object input: its id is whatever text the caller gave. */
  datatype Unresolved =
    Unresolved(id: string, isOptional: bool, isReceiving: bool, refType: nat, typeStr: string)

  datatype Source = Sender | Sponsor

  datatype Withdrawal = Withdrawal(amount: nat, typ: TypeTag, source: Source)

  datatype CallArg =
    | Pure(data: bytes)
    | Object(obj: ObjectArg)
    | FundsWithdrawal(funds: Withdrawal)
    | UnresolvedObject(unres: Unresolved)

  datatype Command<A> =
    | MoveCall(package: Address, modul: string, function_: string, typeArgs: seq<TypeTag>, args: seq<A>)
    | TransferObjects(objects: seq<A>, recipient: A)
    | SplitCoin(fromCoin: A, amounts: seq<A>)
    | MergeCoins(toCoin: A, fromCoins: seq<A>)
    | Publish(modules: seq<bytes>, deps: seq<Address>)
    | MakeMoveVec(elemType: Option<TypeTag>, elements: seq<A>)
    | Upgrade(modules: seq<bytes>, deps: seq<Address>, upgraded: Address, ticket: A)
  {
    /** The values at the argument positions, in field order. */
    function Args(): seq<A> {
      match this
      case MoveCall(_, _, _, _, args) => args
      case TransferObjects(objects, recipient) => objects + [recipient]
      case SplitCoin(coin, amounts) => [coin] + amounts
      case MergeCoins(coin, coins) => [coin] + coins
      case Publish(_, _) => []
      case MakeMoveVec(_, elements) => elements
      case Upgrade(_, _, _, ticket) => [ticket]
    }

    /** The same command with `f` applied at every argument position. */
    function Map<B>(f: A -> B): Command<B> {
      match this
      case MoveCall(p, m, n, ts, args) => MoveCall(p, m, n, ts, MapSeq(args, f))
      case TransferObjects(objects, recipient) => TransferObjects(MapSeq(objects, f), f(recipient))
      case SplitCoin(coin, amounts) => SplitCoin(f(coin), MapSeq(amounts, f))
      case MergeCoins(coin, coins) => MergeCoins(f(coin), MapSeq(coins, f))
      case Publish(ms, ds) => Publish(ms, ds)
      case MakeMoveVec(t, elements) => MakeMoveVec(t, MapSeq(elements, f))
      case Upgrade(ms, ds, p, ticket) => Upgrade(ms, ds, p, f(ticket))
    }
  }

  /** The type tags of a command. */
  function TagsOf<A>(c: Command<A>): seq<TypeTag> {
    match c
    case MoveCall(_, _, _, ts, _) => ts
    case MakeMoveVec(Some(t), _) => [t]
    case _ => []
  }

  /** Two renamings of a command agree exactly when they agree on the arguments it has. */
  lemma MapAgree<A, B>(c: Command<A>, f: A -> B, g: A -> B)
    ensures c.Map(f) == c.Map(g) <==> forall x :: x in c.Args() ==> f(x) == g(x)
  {
    match c
    case MoveCall(_, _, _, _, args) =>
    case TransferObjects(objects, recipient) =>
      assert recipient in c.Args() && forall x :: x in c.Args() <==> x in objects || x == recipient;
    case SplitCoin(coin, amounts) =>
      assert coin in c.Args() && forall x :: x in c.Args() <==> x in amounts || x == coin;
    case MergeCoins(coin, coins) =>
      assert coin in c.Args() && forall x :: x in c.Args() <==> x in coins || x == coin;
    case Publish(_, _) =>
    case MakeMoveVec(_, elements) =>
    case Upgrade(_, _, _, ticket) =>
  }

  lemma MapCompose<A, B, C>(c: Command<A>, f: A -> B, g: B -> C, h: A -> C)
    requires forall x :: x in c.Args() ==> h(x) == g(f(x))
    ensures c.Map(f).Map(g) == c.Map(h)
  {
    var gf := (x: A) => g(f(x));
    assert c.Map(f).Map(g) == c.Map(gf);
    MapAgree(c, gf, h);
  }

  /** The Move framework package, address 0x2. */
  const FRAMEWORK: Address :=
    [0, 0, 0, 0, 0, 0, 0, 0, 0, 0, 0, 0, 0, 0, 0, 0, 0, 0, 0, 0, 0, 0, 0, 0, 0, 0, 0, 0, 0, 0, 0, 2]

  datatype Block = Block(inputs: seq<CallArg>, commands: seq<Command<Argument>>)

  // ---- what an argument denotes --------------------------------------------

  datatype Meaning =
    | TheGasCoin
    | TheInput(value: CallArg)
    | NoInput(index: nat)
    | ResultOf(cmd: nat)
    | PartOf(cmd: nat, sub: nat)

  /** An Input argument inlined: it means the call argument it points at. */
  function Denote(inputs: seq<CallArg>, a: Argument): Meaning {
    match a
    case GasCoin => TheGasCoin
    case Input(i) => if i < |inputs| then TheInput(inputs[i]) else NoInput(i)
    case Result(c) => ResultOf(c)
    case NestedResult(c, s) => PartOf(c, s)
  }

  function DenoteCommand(inputs: seq<CallArg>, c: Command<Argument>): Command<Meaning> {
    c.Map(a => Denote(inputs, a))
  }

  /** An Input index is in range, and a result reference names a command before `cmds`. */
  predicate ArgumentInScope(a: Argument, inputs: nat, cmds: nat) {
    match a
    case GasCoin => true
    case Input(i) => i < inputs
    case Result(c) => c < cmds
    case NestedResult(c, _) => c < cmds
  }

  predicate CommandInScope(c: Command<Argument>, inputs: nat, cmds: nat) {
    forall a :: a in c.Args() ==> ArgumentInScope(a, inputs, cmds)
  }

  /** No dangling input, and every result reference points backwards. */
  predicate WellFormed(b: Block) {
    forall c :: 0 <= c < |b.commands| ==> CommandInScope(b.commands[c], |b.inputs|, c)
  }
}
