// Compressing inputs preserves meaning: the same run on a compressing builder and on one that never
// shares an input appends commands that mean the same. An input that the caller registered and hands
// back may have another index in each builder; what it means is what counts.

module Compression {
  import opened Base
  import opened Ptb
  import opened BuilderSpec
  import opened BuilderLaws

  /** What the compressing builder may put for a meaning of the other: the same, or, for a deferred
      object, an input with its object id (the first registration keeps its flags). */
  predicate Matches(plain: Meaning, shared: Meaning) {
    || plain == shared
    || (&& plain.TheInput? && plain.value.UnresolvedObject? && shared.TheInput?
        && match shared.value
           case UnresolvedObject(u) => u.id == plain.value.unres.id
           case Object(o) => PrintAddress(o.Id()) == plain.value.unres.id
           case _ => false)
  }

  predicate MatchesAll(n: State, c: State, xs: seq<Argument>, ys: seq<Argument>) {
    |xs| == |ys| && forall i :: 0 <= i < |xs| ==> ArgMatches(n, c, xs[i], ys[i])
  }

  predicate ArgMatches(n: State, c: State, x: Argument, y: Argument) {
    InScope(n, x) && InScope(c, y) && Matches(Denote(CallArgs(n), x), Denote(CallArgs(c), y))
  }

  /** A command without its arguments. */
  function Shape(c: Command<Argument>): Command<()> {
    c.Map(_ => ())
  }

  predicate CommandMatches(n: State, c: State, x: Command<Argument>, y: Command<Argument>) {
    Shape(x) == Shape(y) && MatchesAll(n, c, x.Args(), y.Args())
  }

  /** The two builders after the same calls. */
  ghost predicate Simulates(n: State, c: State) {
    && !n.compress && c.compress
    && RegistryAgrees(c) && KeysMatch(c)
    && |n.commands| == |c.commands|
    && forall k :: 0 <= k < |n.commands| ==> CommandMatches(n, c, n.commands[k], c.commands[k])
  }

  /** What the caller hands to the two builders: the same, or arguments that mean the same there. */
  predicate UserMatches(n: State, c: State, u: UserArg, v: UserArg) {
    HonestKey(u) && if u.AArgument? then v.AArgument? && ArgMatches(n, c, u.a, v.a) else u == v
  }

  lemma SimulatesExtends(n: State, c: State, n': State, c': State)
    requires Simulates(n, c) && Extends(n, n') && Extends(c, c')
    requires n'.commands == n.commands && c'.commands == c.commands
    requires RegistryAgrees(c') && KeysMatch(c')
    ensures Simulates(n', c')
  {
    forall k | 0 <= k < |n.commands| ensures CommandMatches(n', c', n.commands[k], c.commands[k]) {
      assert CommandMatches(n, c, n.commands[k], c.commands[k]);
      MatchesAllExtends(n, c, n', c', n.commands[k].Args(), c.commands[k].Args());
    }
  }

  /** Registering a value: both builders succeed or both raise, and the arguments match. */
  lemma InputSimulates(n: State, c: State, key: BuilderArg, target: ObjectTarget)
    requires Simulates(n, c)
    requires target.Known? && key.KObject? ==> key.id == target.obj.Id()
    requires target.Later? && key.KUnresolved? ==> key.name == target.unres.id
    ensures var x, y := InputObj(n, key, target), InputObj(c, key, target);
      && (x.result.Ok? <==> y.result.Ok?)
      && (x.result.Ok? ==> ArgMatches(x.state, y.state, x.result.value, y.result.value))
      && KeysMatch(y.state)
  {
    if target.Known? { FindArgFinds(c.inputs, Object(target.obj), 0); }
    if key.KUnresolved? { FindObjectFinds(c.inputs, key.name, 0); }
  }

  lemma PureSimulates(n: State, c: State, key: BuilderArg)
    requires Simulates(n, c)
    ensures var x, y := InputPure(n, key), InputPure(c, key);
      && (x.result.Ok? <==> y.result.Ok?)
      && (x.result.Ok? ==> ArgMatches(x.state, y.state, x.result.value, y.result.value))
      && KeysMatch(y.state)
  {
    if key.KPure? { FindArgFinds(c.inputs, Pure(key.data), 0); }
  }

  lemma ResolveSimulates(n: State, c: State, p: Place, u: UserArg, v: UserArg)
    requires Simulates(n, c) && UserMatches(n, c, u, v)
    ensures var x, y := Resolve(n, p, u), Resolve(c, p, v);
      && Simulates(x.state, y.state)
      && (x.result.Ok? <==> y.result.Ok?)
      && (x.result.Ok? ==> MatchesAll(x.state, y.state, x.result.value, y.result.value))
  {
    var x, y := Resolve(n, p, u), Resolve(c, p, v);
    ResolveExtends(n, p, u);
    ResolveExtends(c, p, v);
    ResolveRegistry(c, p, v);
    match u {
      case AKey(k) => PureSimulates(n, c, k);
      case APure(d) => PureSimulates(n, c, KPure(d));
      case AUnresolved(d) => InputSimulates(n, c, KUnresolved(SuiId(d.id)), Later(d.(id := SuiId(d.id))));
      case AObject(o) => InputSimulates(n, c, KObject(o.Id()), Known(o));
      case AKeyed(k, t) => InputSimulates(n, c, k, t);
      case _ =>
    }
    SimulatesExtends(n, c, x.state, y.state);
  }

  lemma MatchesAllExtends(n: State, c: State, n': State, c': State, xs: seq<Argument>, ys: seq<Argument>)
    requires MatchesAll(n, c, xs, ys) && Extends(n, n') && Extends(c, c')
    ensures MatchesAll(n', c', xs, ys)
  {
  }

  predicate SlotsMatch(n: State, c: State, us: seq<Slot>, vs: seq<Slot>) {
    |us| == |vs| && forall i :: 0 <= i < |us| ==> SlotMatches(n, c, us[i], vs[i])
  }

  predicate SlotMatches(n: State, c: State, u: Slot, v: Slot) {
    u.place == v.place && UserMatches(n, c, u.user, v.user)
  }

  lemma TailMatches(n: State, c: State, n': State, c': State, us: seq<Slot>, vs: seq<Slot>)
    requires us != [] && SlotsMatch(n, c, us, vs) && Extends(n, n') && Extends(c, c')
    ensures SlotsMatch(n', c', us[1..], vs[1..])
  {
    forall i | 0 <= i < |us[1..]| ensures SlotMatches(n', c', us[1..][i], vs[1..][i]) {
      assert SlotMatches(n, c, us[i + 1], vs[i + 1]);
    }
  }

  predicate OutcomesMatch(x: Outcome<seq<Argument>>, y: Outcome<seq<Argument>>) {
    && (x.result.Ok? <==> y.result.Ok?)
    && (x.result.Ok? ==> MatchesAll(x.state, y.state, x.result.value, y.result.value))
  }

  lemma {:induction false} ResolveAllSimulates(n: State, c: State, us: seq<Slot>, vs: seq<Slot>)
    requires Simulates(n, c) && SlotsMatch(n, c, us, vs)
    ensures Simulates(ResolveAll(n, us).state, ResolveAll(c, vs).state)
    ensures OutcomesMatch(ResolveAll(n, us), ResolveAll(c, vs))
    decreases |us|
  {
    if us != [] {
      var p, u, v := us[0].place, us[0].user, vs[0].user;
      assert SlotMatches(n, c, us[0], vs[0]);
      ResolveSimulates(n, c, p, u, v);
      var x, y := Resolve(n, p, u), Resolve(c, p, v);
      ResolveAllCons(n, us, x);
      ResolveAllCons(c, vs, y);
      if x.result.Ok? {
        ResolveExtends(n, p, u);
        ResolveExtends(c, p, v);
        TailMatches(n, c, x.state, y.state, us, vs);
        ResolveAllSimulates(x.state, y.state, us[1..], vs[1..]);
        ResolveAllExtends(x.state, us[1..]);
        ResolveAllExtends(y.state, vs[1..]);
        OutcomesJoin(x, y, ResolveAll(x.state, us[1..]), ResolveAll(y.state, vs[1..]));
      }
    }
  }

  /** The outcome of one slot, then of the others. */
  function Then(x: Outcome<seq<Argument>>, rest: Outcome<seq<Argument>>): Outcome<seq<Argument>>
    requires x.result.Ok?
  {
    Outcome(rest.state, Append(x.result.value, rest.result))
  }

  lemma ResolveAllCons(s: State, slots: seq<Slot>, x: Outcome<seq<Argument>>)
    requires slots != [] && x == Resolve(s, slots[0].place, slots[0].user)
    ensures ResolveAll(s, slots) == if x.result.Err? then x else Then(x, ResolveAll(x.state, slots[1..]))
  {
  }

  lemma OutcomesJoin(x: Outcome<seq<Argument>>, y: Outcome<seq<Argument>>, x': Outcome<seq<Argument>>,
                     y': Outcome<seq<Argument>>)
    requires x.result.Ok? && y.result.Ok? && OutcomesMatch(x, y) && OutcomesMatch(x', y')
    requires Extends(x.state, x'.state) && Extends(y.state, y'.state)
    ensures OutcomesMatch(Then(x, x'), Then(y, y'))
  {
    if x'.result.Ok? { MatchesAllExtends(x.state, y.state, x'.state, y'.state, x.result.value, y.result.value); }
  }

  lemma AddCommandSimulates(n: State, c: State, x: Command<Argument>, y: Command<Argument>)
    requires Simulates(n, c) && CommandMatches(n, c, x, y)
    ensures Simulates(AddCommand(n, x), AddCommand(c, y))
  {
    var n', c' := AddCommand(n, x), AddCommand(c, y);
    forall id ensures id in c'.registry <==> HasObject(c', id) { assert HasObject(c', id) <==> HasObject(c, id); }
    forall k | 0 <= k < |n'.commands| ensures CommandMatches(n', c', n'.commands[k], c'.commands[k]) {
      var a, b := n'.commands[k], c'.commands[k];
      assert CommandMatches(n, c, a, b);
      MatchesAllExtends(n, c, n', c', a.Args(), b.Args());
    }
  }

  /** The same call but for what it is handed. */
  predicate SameCall(op: Op, oq: Op) {
    match op
    case OpMakeMoveVec(t, items) => oq.OpMakeMoveVec? && oq.elemType == t && |oq.items| == |items|
    case OpMoveCall(p, m, f, ts, args, n) =>
      && oq.OpMoveCall? && oq.package == p && oq.modul == m && oq.function_ == f && oq.typeArgs == ts
      && |oq.args| == |args| && oq.resCount == n
    case OpSplitCoin(_, amounts) => oq.OpSplitCoin? && |oq.amounts| == |amounts|
    case OpMergeCoins(_, coins) => oq.OpMergeCoins? && |oq.fromCoins| == |coins|
    case OpTransferObjects(_, objects) => oq.OpTransferObjects? && |oq.objects| == |objects|
    case OpTransferSui(_, _, amount) => oq.OpTransferSui? && oq.amount == amount
    case OpPublish(_, _) => oq == op
    case OpAuthorizeUpgrade(_, _, _) => oq.OpAuthorizeUpgrade?
    case OpPublishUpgrade(ms, ds, p, _) =>
      oq.OpPublishUpgrade? && oq.modules == ms && oq.deps == ds && oq.package == p
    case OpCommitUpgrade(_, _) => oq.OpCommitUpgrade?
  }

  lemma ListShape(op: Op, oq: Op, xs: seq<Argument>, ys: seq<Argument>, index: nat)
    requires op.OpSplitCoin? || op.OpMergeCoins? || op.OpTransferObjects? || op.OpTransferSui?
    requires SameCall(op, oq) && |xs| == |ys| && Fits(op, xs) && Fits(oq, ys)
    requires op.OpTransferSui? && op.amount.Some? ==> index > 0
    ensures Shape(Make(op, xs, index)) == Shape(Make(oq, ys, index))
  {
  }

  lemma MakeShape(op: Op, oq: Op, xs: seq<Argument>, ys: seq<Argument>, index: nat)
    requires SameCall(op, oq) && |xs| == |ys| && Fits(op, xs) && Fits(oq, ys)
    requires op.OpTransferSui? && op.amount.Some? ==> index > 0
    ensures Shape(Make(op, xs, index)) == Shape(Make(oq, ys, index))
  {
    if op.OpSplitCoin? || op.OpMergeCoins? || op.OpTransferObjects? || op.OpTransferSui? {
      ListShape(op, oq, xs, ys, index);
    }
  }

  /** The arguments of an operation's last command, in the order the command mentions them. */
  function Arranged(op: Op, xs: seq<Argument>, index: nat): seq<Argument>
    requires Fits(op, xs)
    requires op.OpTransferSui? && op.amount.Some? ==> index > 0
  {
    match op
    case OpSplitCoin(_, amounts) => [xs[|amounts|]] + xs[..|amounts|]
    case OpTransferObjects(_, _) => xs[1..] + [xs[0]]
    case OpTransferSui(_, _, amount) => [if amount.Some? then Argument.Result(index - 1) else xs[1], xs[0]]
    case OpPublish(_, _) => []
    case OpPublishUpgrade(_, _, _, ticket) => [ticket]
    case OpCommitUpgrade(cap, receipt) => [cap, receipt]
    case _ => xs
  }

  lemma ListArranges(op: Op, xs: seq<Argument>, index: nat)
    requires op.OpSplitCoin? || op.OpMergeCoins? || op.OpTransferObjects? || op.OpTransferSui?
    requires Fits(op, xs) && (op.OpTransferSui? && op.amount.Some? ==> index > 0)
    ensures Make(op, xs, index).Args() == Arranged(op, xs, index)
  {
    if op.OpMergeCoins? { assert xs == [xs[0]] + xs[1..]; }
  }

  lemma MakeArranges(op: Op, xs: seq<Argument>, index: nat)
    requires Fits(op, xs) && (op.OpTransferSui? && op.amount.Some? ==> index > 0)
    ensures Make(op, xs, index).Args() == Arranged(op, xs, index)
  {
    if op.OpSplitCoin? || op.OpMergeCoins? || op.OpTransferObjects? || op.OpTransferSui? {
      ListArranges(op, xs, index);
    }
  }

  predicate OpMatches(n: State, c: State, op: Op, oq: Op) {
    && SameCall(op, oq) && SlotsMatch(n, c, Slots(op), Slots(oq))
    && (op.OpPublishUpgrade? ==> ArgMatches(n, c, op.ticket, oq.ticket))
    && (op.OpCommitUpgrade? ==> ArgMatches(n, c, op.capArg, oq.capArg) && ArgMatches(n, c, op.receipt, oq.receipt))
  }

  lemma ArrangedMatches(n: State, c: State, op: Op, oq: Op, xs: seq<Argument>, ys: seq<Argument>, index: nat)
    requires SameCall(op, oq)
    requires MatchesAll(n, c, xs, ys) && Fits(op, xs) && Fits(oq, ys) && index == |n.commands| == |c.commands|
    requires op.OpTransferSui? && op.amount.Some? ==> index > 0
    requires op.OpPublishUpgrade? ==> ArgMatches(n, c, op.ticket, oq.ticket)
    requires op.OpCommitUpgrade? ==> ArgMatches(n, c, op.capArg, oq.capArg) && ArgMatches(n, c, op.receipt, oq.receipt)
    ensures MatchesAll(n, c, Arranged(op, xs, index), Arranged(oq, ys, index))
  {
    if op.OpTransferSui? && op.amount.Some? {
      assert ArgMatches(n, c, Argument.Result(index - 1), Argument.Result(index - 1));
    }
  }

  lemma MakeMatches(n: State, c: State, op: Op, oq: Op, xs: seq<Argument>, ys: seq<Argument>)
    requires SameCall(op, oq)
    requires MatchesAll(n, c, xs, ys) && Fits(op, xs) && Fits(oq, ys) && |n.commands| == |c.commands|
    requires op.OpTransferSui? && op.amount.Some? ==> |n.commands| > 0
    requires op.OpPublishUpgrade? ==> ArgMatches(n, c, op.ticket, oq.ticket)
    requires op.OpCommitUpgrade? ==> ArgMatches(n, c, op.capArg, oq.capArg) && ArgMatches(n, c, op.receipt, oq.receipt)
    ensures CommandMatches(n, c, Make(op, xs, |n.commands|), Make(oq, ys, |c.commands|))
  {
    MakeShape(op, oq, xs, ys, |n.commands|);
    MakeArranges(op, xs, |n.commands|);
    MakeArranges(oq, ys, |n.commands|);
    ArrangedMatches(n, c, op, oq, xs, ys, |n.commands|);
  }

  /** The split that comes before a transfer of part of the gas coin. */
  lemma BeforeLastSimulates(n: State, c: State, op: Op, oq: Op, xs: seq<Argument>, ys: seq<Argument>)
    requires Simulates(n, c) && SameCall(op, oq) && MatchesAll(n, c, xs, ys) && Fits(op, xs) && Fits(oq, ys)
    ensures var n', c' := BeforeLast(op, xs, n), BeforeLast(oq, ys, c);
      Simulates(n', c') && MatchesAll(n', c', xs, ys) && Extends(n, n') && Extends(c, c')
  {
    if op.OpTransferSui? && op.amount.Some? {
      assert CommandMatches(n, c, SplitCoin(xs[2], [xs[1]]), SplitCoin(ys[2], [ys[1]]));
      AddCommandSimulates(n, c, SplitCoin(xs[2], [xs[1]]), SplitCoin(ys[2], [ys[1]]));
    }
    MatchesAllExtends(n, c, BeforeLast(op, xs, n), BeforeLast(oq, ys, c), xs, ys);
  }

  /** The arguments that are returned, and may be handed back, match too. */
  lemma ResultsMatch(n: State, c: State, index: nat, count: nat)
    requires index < |n.commands| && index < |c.commands|
    ensures MatchesAll(n, c, Results(index, count), Results(index, count))
  {
  }

  lemma AppendSimulates(n: State, c: State, op: Op, oq: Op, xs: seq<Argument>, ys: seq<Argument>)
    requires Simulates(n, c) && SameCall(op, oq) && MatchesAll(n, c, xs, ys) && Fits(op, xs) && Fits(oq, ys)
    requires op.OpPublishUpgrade? ==> ArgMatches(n, c, op.ticket, oq.ticket)
    requires op.OpCommitUpgrade? ==> ArgMatches(n, c, op.capArg, oq.capArg) && ArgMatches(n, c, op.receipt, oq.receipt)
    ensures var n', c' := BeforeLast(op, xs, n), BeforeLast(oq, ys, c);
      && |n'.commands| == |c'.commands|
      && Simulates(AddCommand(n', Make(op, xs, |n'.commands|)), AddCommand(c', Make(oq, ys, |c'.commands|)))
  {
    BeforeLastSimulates(n, c, op, oq, xs, ys);
    var n', c' := BeforeLast(op, xs, n), BeforeLast(oq, ys, c);
    MakeMatches(n', c', op, oq, xs, ys);
    AddCommandSimulates(n', c', Make(op, xs, |n'.commands|), Make(oq, ys, |c'.commands|));
  }

  lemma ExecSimulates(n: State, c: State, op: Op, oq: Op)
    requires Simulates(n, c) && OpMatches(n, c, op, oq)
    ensures Simulates(Exec(n, op).state, Exec(c, oq).state)
    ensures OutcomesMatch(Exec(n, op), Exec(c, oq))
  {
    ResolveAllSimulates(n, c, Slots(op), Slots(oq));
    ResolveAllExtends(n, Slots(op));
    ResolveAllExtends(c, Slots(oq));
    var x, y := ResolveAll(n, Slots(op)), ResolveAll(c, Slots(oq));
    if x.result.Ok? {
      AppendSimulates(x.state, y.state, op, oq, x.result.value, y.result.value);
      var index := |BeforeLast(op, x.result.value, x.state).commands|;
      ResultsMatch(Exec(n, op).state, Exec(c, oq).state, index, ResultCount(op));
    }
  }

  predicate TurnMatches(n: State, c: State, x: Turn, y: Turn) {
    match x
    case Call(op) => y.Call? && OpMatches(n, c, op, y.op)
    case Register(p, u) => y.Register? && y.place == p && UserMatches(n, c, u, y.user)
  }

  lemma TakeSimulates(n: State, c: State, x: Turn, y: Turn)
    requires Simulates(n, c) && TurnMatches(n, c, x, y)
    ensures Simulates(Take(n, x).state, Take(c, y).state)
    ensures OutcomesMatch(Take(n, x), Take(c, y))
  {
    match x
    case Call(op) => ExecSimulates(n, c, op, y.op);
    case Register(p, u) => ResolveSimulates(n, c, p, u, y.user);
  }

  /** The two builders are run in step, on turns that match when they are taken. */
  predicate RunsMatch(n: State, c: State, xs: seq<Turn>, ys: seq<Turn>)
    decreases |xs|
  {
    && |xs| == |ys|
    && (xs != [] ==>
          && TurnMatches(n, c, xs[0], ys[0])
          && RunsMatch(Take(n, xs[0]).state, Take(c, ys[0]).state, xs[1..], ys[1..]))
  }

  /** For every run, the compressing builder's commands mean what the other's mean. */
  lemma {:induction false} RunSimulates(n: State, c: State, xs: seq<Turn>, ys: seq<Turn>)
    requires Simulates(n, c) && RunsMatch(n, c, xs, ys)
    ensures Simulates(Run(n, xs), Run(c, ys))
    decreases |xs|
  {
    if xs != [] {
      TakeSimulates(n, c, xs[0], ys[0]);
      RunSimulates(Take(n, xs[0]).state, Take(c, ys[0]).state, xs[1..], ys[1..]);
    }
  }

  lemma CompressionKeepsMeaning(xs: seq<Turn>, ys: seq<Turn>, k: nat)
    requires RunsMatch(Init(false), Init(true), xs, ys)
    requires k < |Run(Init(false), xs).commands|
    ensures |Run(Init(true), ys).commands| == |Run(Init(false), xs).commands|
    ensures CommandMatches(Run(Init(false), xs), Run(Init(true), ys),
                           Run(Init(false), xs).commands[k], Run(Init(true), ys).commands[k])
  {
    RunSimulates(Init(false), Init(true), xs, ys);
  }

  // ---- runs that match -----------------------------------------------------

  /** Arguments that matched when they were returned match whenever they are handed back. */
  lemma {:induction false} HandedBackMatches(n: State, c: State, xs: seq<Turn>, ys: seq<Turn>, a: Argument, b: Argument)
    requires ArgMatches(n, c, a, b)
    ensures ArgMatches(Run(n, xs), Run(c, ys), a, b)
  {
    RunExtends(n, xs);
    RunExtends(c, ys);
    MatchesAllExtends(n, c, Run(n, xs), Run(c, ys), [a], [b]);
    assert MatchesAll(Run(n, xs), Run(c, ys), [a], [b]);
  }

  /** Values, and results of earlier commands, are the same for both builders. */
  predicate Portable(n: State, u: UserArg) {
    HonestKey(u) && (u.AArgument? ==> !u.a.Input? && InScope(n, u.a))
  }

  predicate PortableTurn(n: State, turn: Turn) {
    match turn
    case Register(_, u) => Portable(n, u)
    case Call(op) =>
      && (forall i :: 0 <= i < |Slots(op)| ==> Portable(n, Slots(op)[i].user))
      && (op.OpPublishUpgrade? ==> !op.ticket.Input? && InScope(n, op.ticket))
      && (op.OpCommitUpgrade? ==> !op.capArg.Input? && InScope(n, op.capArg))
      && (op.OpCommitUpgrade? ==> !op.receipt.Input? && InScope(n, op.receipt))
  }

  predicate PortableRun(n: State, turns: seq<Turn>)
    decreases |turns|
  {
    turns == [] || (PortableTurn(n, turns[0]) && PortableRun(Take(n, turns[0]).state, turns[1..]))
  }

  lemma PortableMatches(n: State, c: State, turn: Turn)
    requires Simulates(n, c) && PortableTurn(n, turn)
    ensures TurnMatches(n, c, turn, turn)
  {
    if turn.Call? {
      var slots := Slots(turn.op);
      forall i | 0 <= i < |slots| ensures SlotMatches(n, c, slots[i], slots[i]) {
        assert Portable(n, slots[i].user);
      }
    }
  }

  /** The same turns match, if the caller passes no index of an input. */
  lemma {:induction false} SameTurnsMatch(n: State, c: State, turns: seq<Turn>)
    requires Simulates(n, c) && PortableRun(n, turns)
    ensures RunsMatch(n, c, turns, turns)
    decreases |turns|
  {
    if turns != [] {
      PortableMatches(n, c, turns[0]);
      TakeSimulates(n, c, turns[0], turns[0]);
      SameTurnsMatch(Take(n, turns[0]).state, Take(c, turns[0]).state, turns[1..]);
    }
  }
}
