// What a run of builder calls draws from the gas coin, said of the calls: the amounts that callers
// split off it, whatever the builder shares or defers.

module GasDraws {
  import opened Base
  import opened Ptb
  import opened BuilderSpec
  import opened BuilderLaws
  import opened Resolution
  import opened LittleEndian
  import opened Gas
  import opened Payment

  /** The amount a caller's argument names: that of a pure value, handed over now or registered before;
      the result of a command counts as zero. */
  function UserAmount(s: State, u: UserArg): nat {
    match u
    case AKey(k) => if k.KPure? then FromLe(k.data) else 0
    case AArgument(a) => AmountDraw(CallArgs(s), a)
    case _ => 0
  }

  function UserAmounts(s: State, us: seq<UserArg>): nat {
    if us == [] then 0 else UserAmounts(s, us[..|us| - 1]) + UserAmount(s, us[|us| - 1])
  }

  /** What a call splits off the gas coin. */
  function OpDraw(s: State, op: Op): nat {
    match op
    case OpSplitCoin(coin, amounts) => if coin == AArgument(GasCoin) then UserAmounts(s, amounts) else 0
    case OpTransferSui(_, coin, amount) =>
      if amount.Some? && coin == AArgument(GasCoin) then UserAmount(s, AKey(amount.value)) else 0
    case _ => 0
  }

  /** A turn that raises, or only registers an input, splits off nothing. */
  function TurnDraw(s: State, turn: Turn): nat {
    if turn.Call? && Exec(s, turn.op).result.Ok? then OpDraw(s, turn.op) else 0
  }

  function RunDraw(s: State, turns: seq<Turn>): nat
    decreases |turns|
  {
    if turns == [] then 0 else TurnDraw(s, turns[0]) + RunDraw(Take(s, turns[0]).state, turns[1..])
  }

  // ---- numbers -------------------------------------------------------------

  /** A number as `PureInput` hands it over: the key of its u64 bytes. */
  function U64(n: nat): UserArg {
    AKey(KPure(ToLe(n, 8)))
  }

  function Total64(ns: seq<nat>): nat {
    if ns == [] then 0 else Total64(ns[..|ns| - 1]) + ns[|ns| - 1]
  }

  predicate IsU64(n: nat) { n < Pow256(8) }

  lemma NumberAmount(s: State, n: nat, u: UserArg)
    requires IsU64(n) && u == U64(n)
    ensures UserAmount(s, u) == n
  {
    FromToLe(n, 8);
  }

  lemma {:induction false} NumbersAmount(s: State, ns: seq<nat>)
    requires forall i :: 0 <= i < |ns| ==> IsU64(ns[i])
    ensures UserAmounts(s, MapSeq(ns, U64)) == Total64(ns)
  {
    if ns != [] {
      var n := |ns| - 1;
      NumbersAmount(s, ns[..n]);
      NumberAmount(s, ns[n], U64(ns[n]));
      assert MapSeq(ns, U64)[..n] == MapSeq(ns[..n], U64);
    }
  }

  /** Splitting u64 numbers off the gas coin draws their sum ... */
  lemma NumbersDraw(s: State, ns: seq<nat>, amounts: seq<UserArg>)
    requires amounts == MapSeq(ns, U64) && forall i :: 0 <= i < |ns| ==> IsU64(ns[i])
    ensures OpDraw(s, OpSplitCoin(AArgument(GasCoin), amounts)) == Total64(ns)
  {
    NumbersAmount(s, ns);
  }

  /** ... and transferring an amount of it draws that amount. */
  lemma TransferDrawsNumber(s: State, n: nat, amount: UserArg, recipient: UserArg)
    requires IsU64(n) && amount == U64(n)
    ensures OpDraw(s, OpTransferSui(recipient, AArgument(GasCoin), Some(amount.key))) == n
  {
    NumberAmount(s, n, amount);
  }

  // ---- what an argument became ---------------------------------------------

  /** `a` is what the caller's argument `u` became. */
  predicate StandsFor(inputs: seq<CallArg>, u: UserArg, a: Argument) {
    match u
    case AArgument(x) => a == x
    case AKey(k) => k.KPure? && a.Input? && a.index < |inputs| && inputs[a.index] == Pure(k.data)
    case _ => a.Input?
  }

  lemma ResolveStands(s: State, p: Place, u: UserArg)
    requires !p.CallPlace? && Resolve(s, p, u).result.Ok?
    ensures var o := Resolve(s, p, u); |o.result.value| == 1 && StandsFor(CallArgs(o.state), u, o.result.value[0])
  {
    if u.AKey? && u.key.KPure? { FindArgFinds(s.inputs, Pure(u.key.data), 0); }
  }

  lemma {:induction false} ResolveAllStand(s: State, slots: seq<Slot>)
    requires ResolveAll(s, slots).result.Ok? && forall i :: 0 <= i < |slots| ==> !slots[i].place.CallPlace?
    ensures var o := ResolveAll(s, slots);
      && |o.result.value| == |slots|
      && forall i :: 0 <= i < |slots| ==>
           Accepts(slots[i].place, slots[i].user) && StandsFor(CallArgs(o.state), slots[i].user, o.result.value[i])
    decreases |slots|
  {
    if slots != [] {
      var p, u := slots[0].place, slots[0].user;
      var first := Resolve(s, p, u);
      ResolveStands(s, p, u);
      ResolveAllStand(first.state, slots[1..]);
      ResolveAllExtends(first.state, slots[1..]);
      var o := ResolveAll(s, slots);
      assert o.result.value == first.result.value + ResolveAll(first.state, slots[1..]).result.value;
      forall i | 0 <= i < |slots|
        ensures Accepts(slots[i].place, slots[i].user) && StandsFor(CallArgs(o.state), slots[i].user, o.result.value[i])
      {
        if i > 0 { assert slots[i] == slots[1..][i - 1]; }
      }
    }
  }

  // ---- draws ---------------------------------------------------------------

  /** A key, or an argument that was valid when it was handed back. */
  predicate Amount(s: State, u: UserArg) {
    u.AKey? || (u.AArgument? && InScope(s, u.a))
  }

  lemma StandDraws(s: State, inputs: seq<CallArg>, u: UserArg, a: Argument)
    requires CallArgs(s) <= inputs && StandsFor(inputs, u, a) && Amount(s, u)
    ensures AmountDraw(inputs, a) == UserAmount(s, u)
  {
  }

  lemma {:induction false} AmountsAreNamed(s: State, inputs: seq<CallArg>, us: seq<UserArg>, args: seq<Argument>)
    requires CallArgs(s) <= inputs && |us| == |args|
    requires forall i :: 0 <= i < |us| ==> StandsFor(inputs, us[i], args[i])
    requires forall i :: 0 <= i < |us| ==> Amount(s, us[i])
    ensures AmountsDraw(inputs, args) == UserAmounts(s, us)
  {
    if us != [] {
      var n := |us| - 1;
      AmountsAreNamed(s, inputs, us[..n], args[..n]);
      StandDraws(s, inputs, us[n], args[n]);
    }
  }

  /** More inputs change no amount that was in range. */
  lemma {:induction false} AmountsKept(inputs: seq<CallArg>, more: seq<CallArg>, args: seq<Argument>)
    requires inputs <= more && forall a :: a in args && a.Input? ==> a.index < |inputs|
    ensures AmountsDraw(more, args) == AmountsDraw(inputs, args)
  {
    if args != [] {
      var n := |args| - 1;
      assert args[n] in args;
      AmountsKept(inputs, more, args[..n]);
    }
  }

  lemma {:induction false} DrawKept(inputs: seq<CallArg>, more: seq<CallArg>, cs: seq<Command<Argument>>)
    requires inputs <= more && WellFormed(Block(inputs, cs))
    ensures GasDraw(more, cs) == GasDraw(inputs, cs)
  {
    if cs != [] {
      var n := |cs| - 1;
      var c := cs[n];
      assert CommandInScope(c, |inputs|, n);
      forall k | 0 <= k < n ensures CommandInScope(cs[..n][k], |inputs|, k) {
        assert CommandInScope(cs[k], |inputs|, k);
      }
      DrawKept(inputs, more, cs[..n]);
      if c.SplitCoin? {
        assert forall a :: a in c.amounts ==> a in c.Args();
        AmountsKept(inputs, more, c.amounts);
      }
    }
  }

  lemma DrawSnoc(inputs: seq<CallArg>, cs: seq<Command<Argument>>, c: Command<Argument>)
    ensures GasDraw(inputs, cs + [c]) == GasDraw(inputs, cs) + CommandDraw(inputs, c)
  {
    assert (cs + [c])[..|cs|] == cs;
  }

  lemma SplitDraws(s: State, op: Op, args: seq<Argument>, inputs: seq<CallArg>)
    requires op.OpSplitCoin? && OpInScope(s, op) && ResolveAll(s, Slots(op)).result == Ok(args)
    requires inputs == CallArgs(ResolveAll(s, Slots(op)).state) && CallArgs(s) <= inputs
    ensures Fits(op, args) && CommandDraw(inputs, Make(op, args, 0)) == OpDraw(s, op)
  {
    var n, slots := |op.amounts|, Slots(op);
    ResolveAllStand(s, slots);
    assert slots[n].user == op.fromCoin && StandsFor(inputs, op.fromCoin, args[n]);
    forall i | 0 <= i < n
      ensures StandsFor(inputs, op.amounts[i], args[..n][i])
      ensures Amount(s, op.amounts[i])
    {
      assert slots[i] == Slot(ValuePlace, op.amounts[i]) && args[..n][i] == args[i];
    }
    AmountsAreNamed(s, inputs, op.amounts, args[..n]);
  }

  lemma TransferDraws(s: State, op: Op, args: seq<Argument>, inputs: seq<CallArg>)
    requires op.OpTransferSui? && op.amount.Some? && ResolveAll(s, Slots(op)).result == Ok(args)
    requires inputs == CallArgs(ResolveAll(s, Slots(op)).state) && CallArgs(s) <= inputs
    ensures |args| == 3 && CommandDraw(inputs, SplitCoin(args[2], [args[1]])) == OpDraw(s, op)
  {
    var slots, u := Slots(op), AKey(op.amount.value);
    ResolveAllStand(s, slots);
    assert slots[1].user == u && slots[2].user == op.coin;
    assert StandsFor(inputs, u, args[1]) && StandsFor(inputs, op.coin, args[2]);
    AmountsAreNamed(s, inputs, [u], [args[1]]);
    assert UserAmounts(s, [u]) == UserAmount(s, u) by { assert [u][..0] == []; }
  }

  lemma OthersDrawNothing(inputs: seq<CallArg>, op: Op, args: seq<Argument>, index: nat)
    requires Fits(op, args) && (op.OpTransferSui? && op.amount.Some? ==> index > 0)
    requires !op.OpSplitCoin?
    ensures CommandDraw(inputs, Make(op, args, index)) == 0
  {
  }

  /** One call draws what it names, and nothing if it raises. */
  lemma ExecDraws(s: State, op: Op)
    requires Safe(s) && OpInScope(s, op)
    ensures var o := Exec(s, op);
      GasDraw(CallArgs(o.state), o.state.commands)
      == GasDraw(CallArgs(s), s.commands) + if o.result.Ok? then OpDraw(s, op) else 0
  {
    var o, inputs := ResolveAll(s, Slots(op)), CallArgs(ResolveAll(s, Slots(op)).state);
    ResolveAllExtends(s, Slots(op));
    assert CallArgs(s) <= inputs;
    DrawKept(CallArgs(s), inputs, s.commands);
    if o.result.Ok? { AppendedDraws(s, op, o.result.value, inputs); }
  }

  lemma AppendedDraws(s: State, op: Op, args: seq<Argument>, inputs: seq<CallArg>)
    requires OpInScope(s, op) && ResolveAll(s, Slots(op)).result == Ok(args) && CallArgs(s) <= inputs
    requires inputs == CallArgs(ResolveAll(s, Slots(op)).state) && ResolveAll(s, Slots(op)).state.commands == s.commands
    ensures CallArgs(Exec(s, op).state) == inputs
    ensures GasDraw(inputs, Exec(s, op).state.commands) == GasDraw(inputs, s.commands) + OpDraw(s, op)
  {
    var ready := BeforeLast(op, args, ResolveAll(s, Slots(op)).state);
    var last := Make(op, args, |ready.commands|);
    assert Exec(s, op).state.commands == ready.commands + [last];
    DrawSnoc(inputs, ready.commands, last);
    if op.OpTransferSui? && op.amount.Some? {
      TransferDraws(s, op, args, inputs);
      DrawSnoc(inputs, s.commands, SplitCoin(args[2], [args[1]]));
    }
    if op.OpSplitCoin? {
      SplitDraws(s, op, args, inputs);
    } else {
      OthersDrawNothing(inputs, op, args, |ready.commands|);
    }
  }

  lemma TakeDraws(s: State, turn: Turn)
    requires Safe(s) && TurnInScope(s, turn)
    ensures var t := Take(s, turn).state;
      GasDraw(CallArgs(t), t.commands) == GasDraw(CallArgs(s), s.commands) + TurnDraw(s, turn)
  {
    match turn
    case Call(op) => ExecDraws(s, op);
    case Register(p, u) =>
      ResolveExtends(s, p, u);
      assert CallArgs(s) <= CallArgs(Resolve(s, p, u).state);
      DrawKept(CallArgs(s), CallArgs(Resolve(s, p, u).state), s.commands);
  }

  /** After any run, what the commands draw from the gas coin is what the calls that did not raise
      name. */
  lemma {:induction false} RunDraws(s: State, turns: seq<Turn>)
    requires Safe(s) && RunInScope(s, turns)
    ensures var t := Run(s, turns);
      GasDraw(CallArgs(t), t.commands) == GasDraw(CallArgs(s), s.commands) + RunDraw(s, turns)
    decreases |turns|
  {
    if turns != [] {
      TakeDraws(s, turns[0]);
      TakeSafe(s, turns[0]);
      RunDraws(Take(s, turns[0]).state, turns[1..]);
    }
  }

  // ---- paying for a run ----------------------------------------------------

  /** Resolution changes no amount. */
  lemma {:induction false} AmountsResolved(before: seq<CallArg>, after: seq<CallArg>, args: seq<Argument>)
    requires |before| == |after|
    requires forall i :: 0 <= i < |before| ==> after[i] == before[i] || (!before[i].Pure? && !after[i].Pure?)
    ensures AmountsDraw(after, args) == AmountsDraw(before, args)
  {
    if args != [] { AmountsResolved(before, after, args[..|args| - 1]); }
  }

  lemma {:induction false} DrawResolved(before: seq<CallArg>, after: seq<CallArg>, cs: seq<Command<Argument>>)
    requires |before| == |after|
    requires forall i :: 0 <= i < |before| ==> after[i] == before[i] || (!before[i].Pure? && !after[i].Pure?)
    ensures GasDraw(after, cs) == GasDraw(before, cs)
  {
    if cs != [] {
      DrawResolved(before, after, cs[..|cs| - 1]);
      if cs[|cs| - 1].SplitCoin? { AmountsResolved(before, after, cs[|cs| - 1].amounts); }
    }
  }

  /** From an empty builder, through any run and a successful resolution: a payment covers the budget
      plus every amount that the calls split off the gas coin. */
  lemma RunIsPaidFor(compress: bool, turns: seq<Turn>, cache: Option<Cache>, client: Client,
                     s: State, t: State, offered: seq<Coin>, budget: int, price: nat)
    requires s == Run(Init(compress), turns) && RunInScope(Init(compress), turns)
    requires forall turn :: turn in turns ==> HonestTurn(turn)
    requires cache.Some? ==> CacheOk(cache.value)
    requires ResolveDeferred(s, cache, client) == Outcome(t, Ok(())) && NoDup(offered)
    requires Pay(t, offered, budget, price).Ok?
    ensures Total(Pay(t, offered, budget, price).value.payment) >= budget + RunDraw(Init(compress), turns)
  {
    InitCounts(compress);
    assert GasDraw(CallArgs(Init(compress)), []) == 0;
    RunDraws(Init(compress), turns);
    RunKeysMatch(Init(compress), turns);
    ResolutionKeepsDraw(s, t, cache, client);
    PayCovers(t, offered, budget, price);
  }

  lemma ResolutionKeepsDraw(s: State, t: State, cache: Option<Cache>, client: Client)
    requires KeysMatch(s) && (cache.Some? ==> CacheOk(cache.value))
    requires ResolveDeferred(s, cache, client) == Outcome(t, Ok(()))
    ensures GasDraw(CallArgs(t), t.commands) == GasDraw(CallArgs(s), s.commands)
  {
    ResolvedBuilder(s, cache, client);
    var before, after := CallArgs(s), CallArgs(t);
    forall i | 0 <= i < |before| ensures after[i] == before[i] || (!before[i].Pure? && !after[i].Pure?) {
      assert KeyMatches(s.inputs[i].key, s.inputs[i].arg);
    }
    DrawResolved(before, after, t.commands);
  }
}
