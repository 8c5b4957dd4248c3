// Which runs of the builder give blocks that survive the trip through JSON: withdrawals redeemed as
// `coin_from_address_accumulator` and `create_balance` do it, or registered by `withdrawal` and
// redeemed by a later call.

module WithdrawalRuns {
  import opened Base
  import opened Ptb
  import opened BuilderSpec
  import opened BuilderLaws
  import TxbJson
  import TxbRoundTrip

  predicate IsWithdrawalAt(inputs: seq<CallArg>, a: Argument) {
    a.Input? && a.index < |inputs| && inputs[a.index].FundsWithdrawal?
  }

  predicate IsRedeemCall(op: Op) {
    && op.OpMoveCall? && op.package == FRAMEWORK && op.function_ == "redeem_funds"
    && (op.modul == "coin" || op.modul == "balance")
  }

  /** A call with one withdrawal and its type: the withdrawal is new, as `coin_from_address_accumulator`
      and `create_balance` make it, or was registered before, as `withdrawal` does. */
  predicate Redeems(s: State, op: Op) {
    && IsRedeemCall(op) && |op.args| == 1
    && (op.args[0].AWithdrawal? || (op.args[0].AArgument? && IsWithdrawalAt(CallArgs(s), op.args[0].a)))
    && op.typeArgs == [RedeemedFunds(s, op).typ]
  }

  function RedeemedFunds(s: State, op: Op): Withdrawal
    requires op.OpMoveCall? && |op.args| == 1
    requires op.args[0].AWithdrawal? || (op.args[0].AArgument? && IsWithdrawalAt(CallArgs(s), op.args[0].a))
  {
    if op.args[0].AWithdrawal? then op.args[0].w else CallArgs(s)[op.args[0].a.index].funds
  }

  /** No command mentions the argument yet. */
  predicate Unused(s: State, a: Argument) {
    forall c :: 0 <= c < |s.commands| ==> a !in s.commands[c].Args()
  }

  /** A withdrawal is handed back to a Move call only, and only once. */
  predicate UsedOnce(s: State, op: Op, u: UserArg) {
    u.AArgument? && IsWithdrawalAt(CallArgs(s), u.a) ==> op.OpMoveCall? && Unused(s, u.a)
  }

  /** A call whose keys name what they come with, that redeems as above, and that uses a withdrawal at
      most once. */
  predicate Tame(s: State, op: Op) {
    && OpInScope(s, op) && HonestKeys(op)
    && (forall i :: 0 <= i < |Slots(op)| ==> UsedOnce(s, op, Slots(op)[i].user))
    && (op.OpPublishUpgrade? ==> !IsWithdrawalAt(CallArgs(s), op.ticket))
    && (op.OpCommitUpgrade? ==>
          !IsWithdrawalAt(CallArgs(s), op.capArg) && !IsWithdrawalAt(CallArgs(s), op.receipt))
    && (IsRedeemCall(op) ==> Redeems(s, op))
  }

  predicate TameTurn(s: State, turn: Turn) {
    match turn
    case Call(op) => Tame(s, op)
    case Register(_, u) => HonestKey(u) && TurnInScope(s, turn)
  }

  predicate TameRun(s: State, turns: seq<Turn>)
    decreases |turns|
  {
    turns == [] || (TameTurn(s, turns[0]) && TameRun(Take(s, turns[0]).state, turns[1..]))
  }

  // ---- what a run keeps ----------------------------------------------------

  /** A redeeming call has one withdrawal for its argument, and its type. */
  predicate RedeemForm(inputs: seq<CallArg>, c: Command<Argument>) {
    TxbJson.RedeemKind(c).Some? ==>
      |c.args| == 1 && IsWithdrawalAt(inputs, c.args[0]) && c.typeArgs == [inputs[c.args[0].index].funds.typ]
  }

  predicate Apart(inputs: seq<CallArg>, c: Command<Argument>, d: Command<Argument>) {
    forall a :: a in c.Args() && a in d.Args() ==> !IsWithdrawalAt(inputs, a)
  }

  /** Every redeeming call has that form, and no withdrawal belongs to two commands. */
  ghost predicate Tidy(inputs: seq<CallArg>, cs: seq<Command<Argument>>) {
    && WellFormed(Block(inputs, cs))
    && (forall c :: 0 <= c < |cs| ==> RedeemForm(inputs, cs[c]))
    && forall c, d :: 0 <= c < d < |cs| ==> Apart(inputs, cs[c], cs[d])
  }

  // ---- arguments -----------------------------------------------------------

  /** A withdrawal among the arguments of a call is new, or no command mentions it yet. */
  predicate Fresh(s: State, inputs: seq<CallArg>, call: bool, a: Argument) {
    IsWithdrawalAt(inputs, a) ==> call && (a.index >= |s.inputs| || Unused(s, a))
  }

  /** `s` is the builder before the call, `m` the builder when this argument is resolved. */
  lemma ResolveFresh(s: State, m: State, p: Place, u: UserArg, call: bool)
    requires s.inputs <= m.inputs && KeysMatch(m) && HonestKey(u) && (p.CallPlace? ==> call)
    requires u.AArgument? ==> InScope(s, u.a) && (IsWithdrawalAt(CallArgs(s), u.a) ==> call && Unused(s, u.a))
    requires Resolve(m, p, u).result.Ok?
    ensures var o := Resolve(m, p, u);
      forall a :: a in o.result.value ==>
        (a.Input? ==> a.index < |o.state.inputs|) && Fresh(s, CallArgs(o.state), call, a)
  {
    match u
    case AKey(k) => PureFresh(m, k);
    case APure(d) => PureFresh(m, KPure(d));
    case AUnresolved(x) => ObjectFresh(m, KUnresolved(SuiId(x.id)), Later(x.(id := SuiId(x.id))));
    case AObject(o) => ObjectFresh(m, KObject(o.Id()), Known(o));
    case AKeyed(k, t) => ObjectFresh(m, k, t);
    case AArgument(a) => if a.Input? { assert CallArgs(m)[a.index] == CallArgs(s)[a.index]; }
    case _ =>
  }

  lemma PureFresh(s: State, k: BuilderArg)
    requires InputPure(s, k).result.Ok?
    ensures var o := InputPure(s, k);
      && o.result.value.Input? && o.result.value.index < |o.state.inputs|
      && !IsWithdrawalAt(CallArgs(o.state), o.result.value)
  {
    FindArgFinds(s.inputs, Pure(k.data), 0);
  }

  lemma ObjectFresh(s: State, k: BuilderArg, t: ObjectTarget)
    requires KeysMatch(s) && InputObj(s, k, t).result.Ok?
    ensures var o := InputObj(s, k, t);
      && o.result.value.Input? && o.result.value.index < |o.state.inputs|
      && !IsWithdrawalAt(CallArgs(o.state), o.result.value)
  {
    if t.Known? { FindArgFinds(s.inputs, Object(t.obj), 0); }
    if k.KUnresolved? {
      FindObjectFinds(s.inputs, k.name, 0);
      var r := FindObject(s.inputs, k.name, 0);
      if r.Some? { assert KeyMatches(s.inputs[r.value].key, s.inputs[r.value].arg); }
    }
  }

  predicate SlotTame(s: State, call: bool, x: Slot) {
    && HonestKey(x.user) && (x.place.CallPlace? ==> call)
    && (x.user.AArgument? ==>
          InScope(s, x.user.a) && (IsWithdrawalAt(CallArgs(s), x.user.a) ==> call && Unused(s, x.user.a)))
  }

  lemma {:induction false} ResolveAllFresh(s: State, m: State, slots: seq<Slot>, call: bool)
    requires s.inputs <= m.inputs && KeysMatch(m) && ResolveAll(m, slots).result.Ok?
    requires forall i :: 0 <= i < |slots| ==> SlotTame(s, call, slots[i])
    ensures var o := ResolveAll(m, slots);
      forall a :: a in o.result.value ==> Fresh(s, CallArgs(o.state), call, a)
    decreases |slots|
  {
    if slots != [] {
      var p, u := slots[0].place, slots[0].user;
      assert SlotTame(s, call, slots[0]);
      var first := Resolve(m, p, u);
      ResolveKeysMatch(m, p, u);
      ResolveFresh(s, m, p, u, call);
      ResolveExtends(m, p, u);
      forall i | 0 <= i < |slots[1..]| ensures SlotTame(s, call, slots[1..][i]) {
        assert SlotTame(s, call, slots[i + 1]);
      }
      ResolveAllFresh(s, first.state, slots[1..], call);
      ResolveAllExtends(first.state, slots[1..]);
      var rest := ResolveAll(first.state, slots[1..]);
      FreshLater(s, first.state, rest.state, call, first.result.value, rest.result.value);
    }
  }

  lemma FreshLater(s: State, m: State, t: State, call: bool, xs: seq<Argument>, ys: seq<Argument>)
    requires m.inputs <= t.inputs
    requires forall a :: a in xs ==> (a.Input? ==> a.index < |m.inputs|) && Fresh(s, CallArgs(m), call, a)
    requires forall a :: a in ys ==> Fresh(s, CallArgs(t), call, a)
    ensures forall a :: a in xs + ys ==> Fresh(s, CallArgs(t), call, a)
  {
    forall a | a in xs + ys ensures Fresh(s, CallArgs(t), call, a) {
      if a in xs && a.Input? { assert CallArgs(t)[a.index] == CallArgs(m)[a.index]; }
    }
  }

  lemma TameSlots(s: State, op: Op)
    requires Tame(s, op)
    ensures forall i :: 0 <= i < |Slots(op)| ==> SlotTame(s, op.OpMoveCall?, Slots(op)[i])
  {
    forall i | 0 <= i < |Slots(op)| ensures SlotTame(s, op.OpMoveCall?, Slots(op)[i]) {
      assert UsedOnce(s, op, Slots(op)[i].user);
    }
  }

  // ---- commands ------------------------------------------------------------

  /** More inputs keep a tidy block tidy. */
  lemma TidyGrows(inputs: seq<CallArg>, more: seq<CallArg>, cs: seq<Command<Argument>>)
    requires Tidy(inputs, cs) && inputs <= more
    ensures Tidy(more, cs)
  {
    forall c | 0 <= c < |cs| ensures CommandInScope(cs[c], |more|, c) && RedeemForm(more, cs[c]) {
      assert CommandInScope(cs[c], |inputs|, c) && RedeemForm(inputs, cs[c]);
    }
    forall c, d | 0 <= c < d < |cs| ensures Apart(more, cs[c], cs[d]) {
      assert Apart(inputs, cs[c], cs[d]) && CommandInScope(cs[c], |inputs|, c);
    }
  }

  /** No command of the list mentions a withdrawal of `x`. */
  predicate AwayFrom(inputs: seq<CallArg>, cs: seq<Command<Argument>>, x: Command<Argument>) {
    forall a, c :: a in x.Args() && IsWithdrawalAt(inputs, a) && 0 <= c < |cs| ==> a !in cs[c].Args()
  }

  /** A further command keeps it so if its withdrawals are not in use and its form is right. */
  lemma TidyAppend(inputs: seq<CallArg>, cs: seq<Command<Argument>>, x: Command<Argument>)
    requires Tidy(inputs, cs) && WellFormed(Block(inputs, cs + [x])) && RedeemForm(inputs, x)
    requires AwayFrom(inputs, cs, x)
    ensures Tidy(inputs, cs + [x])
  {
    var all := cs + [x];
    forall c, d | 0 <= c < d < |all| ensures Apart(inputs, all[c], all[d]) {
      if d < |cs| { assert Apart(inputs, cs[c], cs[d]); }
    }
  }

  /** A fresh withdrawal is in no command. */
  lemma FreshIsUnused(s: State, inputs: seq<CallArg>, call: bool, a: Argument)
    requires Safe(s) && Fresh(s, inputs, call, a) && IsWithdrawalAt(inputs, a)
    ensures call && Unused(s, a)
  {
    forall c | 0 <= c < |s.commands| ensures a !in s.commands[c].Args() {
      assert CommandInScope(s.commands[c], |s.inputs|, c);
    }
  }

  /** The inputs that the last command mentions are resolved arguments or the arguments of an upgrade. */
  lemma MakeArgs(op: Op, args: seq<Argument>, index: nat, a: Argument)
    requires Fits(op, args) && (op.OpTransferSui? && op.amount.Some? ==> index > 0)
    requires a in Make(op, args, index).Args() && a.Input?
    ensures || a in args || (op.OpPublishUpgrade? && a == op.ticket)
            || (op.OpCommitUpgrade? && (a == op.capArg || a == op.receipt))
  {
    var x := Make(op, args, index);
    match op
    case OpSplitCoin(_, amounts) => assert x.Args() == [args[|amounts|]] + args[..|amounts|];
    case OpMergeCoins(_, _) => assert x.Args() == [args[0]] + args[1..];
    case OpTransferObjects(_, _) => assert x.Args() == args[1..] + [args[0]];
    case OpTransferSui(_, _, _) => assert x.Args() == x.objects + [args[0]];
    case _ =>
  }

  /** A redeeming call mentions the withdrawal that it registers, or that was registered before. */
  lemma RedeemMakes(s: State, op: Op)
    requires Redeems(s, op)
    ensures var o := ResolveAll(s, Slots(op));
      && o.result.Ok? && |o.result.value| == 1 && IsWithdrawalAt(CallArgs(o.state), o.result.value[0])
      && CallArgs(o.state)[o.result.value[0].index].funds == RedeemedFunds(s, op)
  {
    var slots := Slots(op);
    assert slots == [Slot(CallPlace, op.args[0])] && slots[1..] == [];
    var first := Resolve(s, CallPlace, op.args[0]);
    var a := if op.args[0].AWithdrawal? then Input(|s.inputs|) else op.args[0].a;
    assert first.result == Ok([a]);
    assert [a] + [] == [a];
  }

  lemma OnlyRedeemCallsRedeem(op: Op, args: seq<Argument>, index: nat)
    requires Fits(op, args) && (op.OpTransferSui? && op.amount.Some? ==> index > 0)
    ensures TxbJson.RedeemKind(Make(op, args, index)).Some? <==> IsRedeemCall(op)
  {
    assert "redeem_funds"[0] != "authorize_upgrade"[0] && "redeem_funds"[0] != "commit_upgrade"[0];
  }

  lemma MakeForm(s: State, op: Op, args: seq<Argument>, index: nat, inputs: seq<CallArg>)
    requires Tame(s, op) && ResolveAll(s, Slots(op)).result == Ok(args)
    requires inputs == CallArgs(ResolveAll(s, Slots(op)).state)
    requires Fits(op, args) && (op.OpTransferSui? && op.amount.Some? ==> index > 0)
    ensures RedeemForm(inputs, Make(op, args, index))
  {
    OnlyRedeemCallsRedeem(op, args, index);
    if IsRedeemCall(op) { RedeemMakes(s, op); }
  }

  /** A transfer of an amount splits first, and no withdrawal is part of that. */
  lemma BeforeLastTidy(s: State, op: Op, m: State, args: seq<Argument>)
    requires Safe(m) && m.commands == s.commands && Tidy(CallArgs(m), m.commands) && Fits(op, args)
    requires forall a :: a in args ==> Fresh(s, CallArgs(m), op.OpMoveCall?, a)
    requires AllInScope(m, args)
    ensures var ready := BeforeLast(op, args, m);
      Tidy(CallArgs(m), ready.commands) && (op.OpMoveCall? ==> ready == m)
  {
    BeforeLastSafe(m, op, args);
    if op.OpTransferSui? && op.amount.Some? {
      var x := SplitCoin(args[2], [args[1]]);
      assert x.Args() == [args[2], args[1]] && args[1] in args && args[2] in args;
      TidyAppend(CallArgs(m), s.commands, x);
    }
  }

  lemma OldInput(s: State, m: State, a: Argument)
    requires s.inputs <= m.inputs && InScope(s, a)
    ensures IsWithdrawalAt(CallArgs(m), a) <==> IsWithdrawalAt(CallArgs(s), a)
  {
    if a.Input? { assert CallArgs(m)[a.index] == CallArgs(s)[a.index]; }
  }

  /** The withdrawals of the last command are in no command before it. */
  lemma MakeAway(s: State, op: Op, m: State, args: seq<Argument>, ready: State, x: Command<Argument>)
    requires Safe(s) && Tame(s, op) && s.inputs <= m.inputs && m.commands == s.commands && Fits(op, args)
    requires forall a :: a in args ==> Fresh(s, CallArgs(m), op.OpMoveCall?, a)
    requires ready == BeforeLast(op, args, m) && x == Make(op, args, |ready.commands|)
    ensures AwayFrom(CallArgs(m), ready.commands, x)
  {
    forall a, c | a in x.Args() && IsWithdrawalAt(CallArgs(m), a) && 0 <= c < |ready.commands|
      ensures a !in ready.commands[c].Args()
    {
      MakeArgs(op, args, |ready.commands|, a);
      if InScope(s, a) { OldInput(s, m, a); }
      if a in args { FreshIsUnused(s, CallArgs(m), op.OpMoveCall?, a); }
    }
  }

  lemma MakeTidy(s: State, op: Op, m: State, args: seq<Argument>, ready: State, x: Command<Argument>)
    requires Safe(s) && Tame(s, op) && Outcome(m, Ok(args)) == ResolveAll(s, Slots(op))
    requires s.inputs <= m.inputs && m.commands == s.commands
    requires forall a :: a in args ==> Fresh(s, CallArgs(m), op.OpMoveCall?, a)
    requires ready == BeforeLast(op, args, m) && x == Make(op, args, |ready.commands|)
    requires Tidy(CallArgs(m), ready.commands) && CommandInScope(x, |m.inputs|, |ready.commands|)
    ensures Tidy(CallArgs(m), ready.commands + [x])
  {
    MakeForm(s, op, args, |ready.commands|, CallArgs(m));
    MakeAway(s, op, m, args, ready, x);
    var all := ready.commands + [x];
    forall k | 0 <= k < |all| ensures CommandInScope(all[k], |m.inputs|, k) {
      if k < |ready.commands| { assert CommandInScope(ready.commands[k], |CallArgs(m)|, k); }
    }
    TidyAppend(CallArgs(m), ready.commands, x);
  }

  lemma ExecTidy(s: State, op: Op)
    requires Tidy(CallArgs(s), s.commands) && KeysMatch(s) && Tame(s, op)
    ensures var t := Exec(s, op).state; Tidy(CallArgs(t), t.commands)
  {
    var o, slots := ResolveAll(s, Slots(op)), Slots(op);
    ResolveAllExtends(s, slots);
    assert CallArgs(s) <= CallArgs(o.state);
    TidyGrows(CallArgs(s), CallArgs(o.state), s.commands);
    if o.result.Ok? { AppendTidy(s, op, o.state, o.result.value); }
  }

  lemma AppendTidy(s: State, op: Op, m: State, args: seq<Argument>)
    requires Safe(s) && KeysMatch(s) && Tame(s, op) && Outcome(m, Ok(args)) == ResolveAll(s, Slots(op))
    requires s.inputs <= m.inputs && m.commands == s.commands && Tidy(CallArgs(m), m.commands)
    ensures var t := Exec(s, op).state; Tidy(CallArgs(t), t.commands)
  {
    TameSlots(s, op);
    ResolveAllFresh(s, s, Slots(op), op.OpMoveCall?);
    ResolveAllInScope(s, Slots(op));
    var ready := BeforeLast(op, args, m);
    BeforeLastTidy(s, op, m, args);
    BeforeLastSafe(m, op, args);
    MakeInScope(s, op, args, ready);
    MakeTidy(s, op, m, args, ready, Make(op, args, |ready.commands|));
  }

  lemma TakeTidy(s: State, turn: Turn)
    requires Tidy(CallArgs(s), s.commands) && KeysMatch(s) && TameTurn(s, turn)
    ensures var t := Take(s, turn).state; Tidy(CallArgs(t), t.commands) && KeysMatch(t)
  {
    TakeKeysMatch(s, turn);
    match turn
    case Call(op) => ExecTidy(s, op);
    case Register(p, u) =>
      ResolveExtends(s, p, u);
      assert CallArgs(s) <= CallArgs(Resolve(s, p, u).state);
      TidyGrows(CallArgs(s), CallArgs(Resolve(s, p, u).state), s.commands);
  }

  lemma {:induction false} RunTidy(s: State, turns: seq<Turn>)
    requires Tidy(CallArgs(s), s.commands) && KeysMatch(s) && TameRun(s, turns)
    ensures var t := Run(s, turns); Tidy(CallArgs(t), t.commands) && KeysMatch(t)
    decreases |turns|
  {
    if turns != [] {
      TakeTidy(s, turns[0]);
      RunTidy(Take(s, turns[0]).state, turns[1..]);
    }
  }

  // ---- sources -------------------------------------------------------------

  /** The redeemed withdrawal draws on the sender. */
  predicate FromSender(inputs: seq<CallArg>, c: Command<Argument>) {
    TxbJson.RedeemKind(c).Some? && |c.args| == 1 && IsWithdrawalAt(inputs, c.args[0]) ==>
      inputs[c.args[0].index].funds.source == Sender
  }

  ghost predicate AllFromSender(inputs: seq<CallArg>, cs: seq<Command<Argument>>) {
    forall c :: 0 <= c < |cs| ==> FromSender(inputs, cs[c])
  }

  lemma CandidateIsAlone(b: Block, c: nat)
    requires Tidy(b.inputs, b.commands) && c < |b.commands|
    ensures TxbJson.Candidate(b, c).Some? <==> TxbJson.RedeemKind(b.commands[c]).Some?
    ensures TxbJson.Candidate(b, c).Some? ==>
      var i := TxbJson.Candidate(b, c).value;
      && b.commands[c].args == [Input(i)] && b.commands[c].typeArgs == [b.inputs[i].funds.typ]
      && forall d :: 0 <= d < |b.commands| && d != c ==> Input(i) !in b.commands[d].Args()
  {
    assert RedeemForm(b.inputs, b.commands[c]);
    if TxbJson.RedeemKind(b.commands[c]).Some? {
      var a := b.commands[c].args[0];
      assert b.commands[c].args == [a] && a in b.commands[c].Args();
      forall d | 0 <= d < |b.commands| && d != c ensures a !in b.commands[d].Args() {
        if d < c { assert Apart(b.inputs, b.commands[d], b.commands[c]); }
        else { assert Apart(b.inputs, b.commands[c], b.commands[d]); }
      }
    }
  }

  /** A tidy block is exportable exactly if every redeemed withdrawal draws on the sender. */
  lemma TidyIsExportable(b: Block)
    requires Tidy(b.inputs, b.commands)
    ensures TxbRoundTrip.Exportable(b) <==> AllFromSender(b.inputs, b.commands)
  {
    forall c | 0 <= c < |b.commands|
      ensures FromSender(b.inputs, b.commands[c]) <==>
        (TxbJson.Candidate(b, c).Some? ==> b.inputs[TxbJson.Candidate(b, c).value].funds.source == Sender)
    {
      CandidateIsAlone(b, c);
      assert RedeemForm(b.inputs, b.commands[c]);
    }
    forall c | 0 <= c < |b.commands| && TxbJson.Candidate(b, c).Some?
      ensures b.commands[c].args == [Input(TxbJson.Candidate(b, c).value)]
    {
      CandidateIsAlone(b, c);
    }
    if AllFromSender(b.inputs, b.commands) {
      forall c | 0 <= c < |b.commands| && TxbJson.Candidate(b, c).Some?
        ensures var i := TxbJson.Candidate(b, c).value;
          && b.commands[c].typeArgs == [b.inputs[i].funds.typ] && b.inputs[i].funds.source == Sender
          && forall d :: 0 <= d < |b.commands| && d != c ==> Input(i) !in b.commands[d].Args()
      {
        CandidateIsAlone(b, c);
        assert FromSender(b.inputs, b.commands[c]);
      }
    }
  }

  /** A redeeming call draws on the sender. */
  predicate SenderTurn(s: State, turn: Turn) {
    turn.Call? && Redeems(s, turn.op) ==> RedeemedFunds(s, turn.op).source == Sender
  }

  predicate SenderRun(s: State, turns: seq<Turn>)
    decreases |turns|
  {
    turns == [] || (SenderTurn(s, turns[0]) && SenderRun(Take(s, turns[0]).state, turns[1..]))
  }

  lemma SourcesGrow(s: State, more: seq<CallArg>)
    requires Safe(s) && CallArgs(s) <= more
    ensures AllFromSender(more, s.commands) <==> AllFromSender(CallArgs(s), s.commands)
  {
    forall c | 0 <= c < |s.commands|
      ensures FromSender(more, s.commands[c]) <==> FromSender(CallArgs(s), s.commands[c])
    {
      assert CommandInScope(s.commands[c], |s.inputs|, c);
      if s.commands[c].MoveCall? && |s.commands[c].args| == 1 {
        assert s.commands[c].args[0] in s.commands[c].Args();
      }
    }
  }

  lemma SourcesAppend(inputs: seq<CallArg>, cs: seq<Command<Argument>>, x: Command<Argument>)
    ensures AllFromSender(inputs, cs + [x]) <==> AllFromSender(inputs, cs) && FromSender(inputs, x)
  {
    var all := cs + [x];
    if AllFromSender(inputs, all) {
      forall c | 0 <= c < |cs| ensures FromSender(inputs, cs[c]) { assert all[c] == cs[c]; }
      assert all[|cs|] == x;
    }
  }

  lemma MakeSource(s: State, op: Op, args: seq<Argument>, index: nat, inputs: seq<CallArg>)
    requires Tame(s, op) && ResolveAll(s, Slots(op)).result == Ok(args)
    requires inputs == CallArgs(ResolveAll(s, Slots(op)).state)
    requires Fits(op, args) && (op.OpTransferSui? && op.amount.Some? ==> index > 0)
    ensures FromSender(inputs, Make(op, args, index)) <==> SenderTurn(s, Call(op))
  {
    OnlyRedeemCallsRedeem(op, args, index);
    if Redeems(s, op) { RedeemMakes(s, op); }
  }

  lemma AppendedSources(s: State, op: Op, m: State, args: seq<Argument>, inputs: seq<CallArg>)
    requires Tame(s, op) && ResolveAll(s, Slots(op)) == Outcome(m, Ok(args)) && Fits(op, args)
    requires inputs == CallArgs(m)
    ensures var ready := BeforeLast(op, args, m);
      AllFromSender(inputs, ready.commands + [Make(op, args, |ready.commands|)])
      <==> AllFromSender(inputs, m.commands) && SenderTurn(s, Call(op))
  {
    var ready := BeforeLast(op, args, m);
    if op.OpTransferSui? && op.amount.Some? {
      SourcesAppend(inputs, m.commands, SplitCoin(args[2], [args[1]]));
    }
    MakeSource(s, op, args, |ready.commands|, inputs);
    SourcesAppend(inputs, ready.commands, Make(op, args, |ready.commands|));
  }

  lemma ExecSources(s: State, op: Op)
    requires Safe(s) && Tame(s, op)
    ensures var t := Exec(s, op).state;
      AllFromSender(CallArgs(t), t.commands) <==> AllFromSender(CallArgs(s), s.commands) && SenderTurn(s, Call(op))
  {
    var o := ResolveAll(s, Slots(op));
    ResolveAllExtends(s, Slots(op));
    assert CallArgs(s) <= CallArgs(o.state);
    SourcesGrow(s, CallArgs(o.state));
    if Redeems(s, op) { RedeemMakes(s, op); }
    if o.result.Ok? { AppendedSources(s, op, o.state, o.result.value, CallArgs(o.state)); }
  }

  lemma TakeSources(s: State, turn: Turn)
    requires Safe(s) && TameTurn(s, turn)
    ensures var t := Take(s, turn).state;
      AllFromSender(CallArgs(t), t.commands) <==> AllFromSender(CallArgs(s), s.commands) && SenderTurn(s, turn)
  {
    match turn
    case Call(op) => ExecSources(s, op);
    case Register(p, u) =>
      ResolveExtends(s, p, u);
      assert CallArgs(s) <= CallArgs(Resolve(s, p, u).state);
      SourcesGrow(s, CallArgs(Resolve(s, p, u).state));
  }

  lemma {:induction false} RunSources(s: State, turns: seq<Turn>)
    requires Safe(s) && TameRun(s, turns)
    ensures var t := Run(s, turns);
      AllFromSender(CallArgs(t), t.commands) <==> AllFromSender(CallArgs(s), s.commands) && SenderRun(s, turns)
    decreases |turns|
  {
    if turns != [] {
      TakeSources(s, turns[0]);
      TakeSafe(s, turns[0]);
      RunSources(Take(s, turns[0]).state, turns[1..]);
    }
  }

  /** A tame run gives an exportable block exactly if no redeeming call of the run draws on the sponsor. */
  lemma RunIsExportable(compress: bool, turns: seq<Turn>)
    requires TameRun(Init(compress), turns)
    ensures var t := Run(Init(compress), turns);
      TxbRoundTrip.Exportable(Block(CallArgs(t), t.commands)) <==> SenderRun(Init(compress), turns)
  {
    var t := Run(Init(compress), turns);
    InitCounts(compress);
    RunTidy(Init(compress), turns);
    RunSources(Init(compress), turns);
    TidyIsExportable(Block(CallArgs(t), t.commands));
  }

  /** `withdrawal`, and a later call that redeems what it returned. */
  lemma WithdrawThenRedeem(compress: bool, w: Withdrawal, redeem: Op, turns: seq<Turn>)
    requires redeem == OpMoveCall(FRAMEWORK, "balance", "redeem_funds", [w.typ], [AArgument(Input(0))], 1)
    requires turns == [Register(CallPlace, AWithdrawal(w)), Call(redeem)]
    ensures TameRun(Init(compress), turns) && (SenderRun(Init(compress), turns) <==> w.source == Sender)
  {
    var s := Take(Init(compress), turns[0]).state;
    assert s.inputs == [Entry(KWithdrawal(w), FundsWithdrawal(w))] && s.commands == [];
    assert Slots(redeem) == [Slot(CallPlace, AArgument(Input(0)))];
    assert Redeems(s, redeem) && RedeemedFunds(s, redeem) == w && Tame(s, redeem);
    assert turns[1..] == [turns[1]] && turns[1..][1..] == [];
    assert TameRun(Take(s, turns[1]).state, []) && SenderRun(Take(s, turns[1]).state, []);
    assert TameRun(s, turns[1..]) && (SenderRun(s, turns[1..]) <==> w.source == Sender);
  }
}
