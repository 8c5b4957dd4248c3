// Importing an exported block and then resolving its deferred objects: the same resolution as of the
// original, except that JSON does not say which shared objects were taken by mutable reference.

module ImportResolution {
  import opened Base
  import opened Ptb
  import opened TxbJson
  import opened TxbRoundTrip
  import opened Json
  import opened TypeTags
  import opened Resolution
  import BuilderSpec

  /** The summary that the cache or the client has for an id. */
  type Picker = string -> Option<Summary>

  function PickFrom(cache: Option<Cache>, fetched: seq<Summary>): Picker {
    (id: string) => Pick(cache, fetched, id)
  }

  /** What resolution makes of one input. */
  function ResolvedArg(pick: Picker, ca: CallArg): CallArg {
    if ca.UnresolvedObject? && Resolves(pick, ca) then
      Object(ObjectFor(ca.unres, ParseAddress(ca.unres.id).value, pick(ca.unres.id).value))
    else ca
  }

  predicate Resolves(pick: Picker, ca: CallArg) {
    ca.UnresolvedObject? ==> ParseAddress(ca.unres.id).Some? && pick(ca.unres.id).Some?
  }

  function ResolvedArgs(pick: Picker, args: seq<CallArg>): (r: seq<CallArg>)
    ensures |r| == |args| && forall i :: 0 <= i < |args| ==> r[i] == ResolvedArg(pick, args[i])
  {
    seq(|args|, i requires 0 <= i < |args| => ResolvedArg(pick, args[i]))
  }

  predicate AllResolve(pick: Picker, args: seq<CallArg>) {
    forall i :: 0 <= i < |args| ==> Resolves(pick, args[i])
  }

  /** A deferred object that was taken by mutable reference and turns out to be shared. */
  predicate LosesMut(pick: Picker, ca: CallArg) {
    && ca.UnresolvedObject? && ca.unres.refType == MUT_REF
    && pick(ca.unres.id).Some? && pick(ca.unres.id).value.initialShared.Some?
  }

  // ---- the ids to fetch ----------------------------------------------------

  function Wanted(ca: CallArg, cache: Option<Cache>): seq<string> {
    if ca.UnresolvedObject? && Lookup(cache, ca.unres.id).None? then [ca.unres.id] else []
  }

  function WantedIds(args: seq<CallArg>, cache: Option<Cache>): seq<string> {
    if args == [] then [] else WantedIds(args[..|args| - 1], cache) + Wanted(args[|args| - 1], cache)
  }

  lemma {:induction false} FetchIdsAreWanted(inputs: seq<BuilderSpec.Entry>, args: seq<CallArg>, cache: Option<Cache>)
    requires InStep(inputs) && |args| == |inputs| && forall i :: 0 <= i < |args| ==> args[i] == inputs[i].arg
    ensures FetchIds(inputs, cache) == WantedIds(args, cache)
  {
    if inputs != [] {
      var n := |inputs| - 1;
      FetchIdsAreWanted(inputs[..n], args[..n], cache);
    }
  }

  lemma WantedSnoc(args: seq<CallArg>, ca: CallArg, cache: Option<Cache>)
    ensures WantedIds(args + [ca], cache) == WantedIds(args, cache) + Wanted(ca, cache)
  {
    assert (args + [ca])[..|args|] == args;
  }

  /** Inputs that are not deferred add nothing. */
  lemma {:induction false} WantedNoMore(args: seq<CallArg>, more: seq<CallArg>, cache: Option<Cache>)
    requires forall i :: 0 <= i < |more| ==> !more[i].UnresolvedObject?
    ensures WantedIds(args + more, cache) == WantedIds(args, cache)
  {
    if more == [] {
      assert args + more == args;
    } else {
      var n := |more| - 1;
      WantedNoMore(args, more[..n], cache);
      assert args + more == (args + more[..n]) + [more[n]];
      WantedSnoc(args + more[..n], more[n], cache);
    }
  }

  /** The plain inputs below `n`, as they come back. */
  function BackUpTo(b: Block, n: nat): seq<CallArg>
    requires n <= |b.inputs|
  {
    if n == 0 then []
    else BackUpTo(b, n - 1) + if n - 1 in Plain(b) then [AfterJson(b.inputs[n - 1], Extended)] else []
  }

  lemma {:induction false} BackUpToIsPlain(b: Block, n: nat, xs: seq<nat>)
    requires n <= |b.inputs| && xs == Ascending(n, Plain(b))
    ensures |BackUpTo(b, n)| == |xs|
    ensures forall t :: 0 <= t < |xs| ==> BackUpTo(b, n)[t] == AfterJson(b.inputs[xs[t]], Extended)
  {
    if n > 0 {
      var before := Ascending(n - 1, Plain(b));
      BackUpToIsPlain(b, n - 1, before);
      assert xs == before + if n - 1 in Plain(b) then [n - 1] else [];
    }
  }

  lemma {:induction false} BackUpToWants(b: Block, n: nat, cache: Option<Cache>)
    requires n <= |b.inputs|
    ensures WantedIds(BackUpTo(b, n), cache) == WantedIds(b.inputs[..n], cache)
  {
    if n > 0 {
      var args, ca := b.inputs[..n - 1], b.inputs[n - 1];
      assert b.inputs[..n] == args + [ca];
      BackUpToWants(b, n - 1, cache);
      WantsOneMore(args, BackUpTo(b, n - 1), ca, BackUpTo(b, n), cache);
    }
  }

  lemma WantsOneMore(args: seq<CallArg>, back: seq<CallArg>, ca: CallArg, next: seq<CallArg>, cache: Option<Cache>)
    requires WantedIds(back, cache) == WantedIds(args, cache)
    requires next == back + if ca.FundsWithdrawal? then [] else [AfterJson(ca, Extended)]
    ensures WantedIds(next, cache) == WantedIds(args + [ca], cache)
  {
    WantedSnoc(args, ca, cache);
    if ca.FundsWithdrawal? { assert next == back; } else { WantedSnoc(back, AfterJson(ca, Extended), cache); }
  }

  /** The import asks for the same objects, in the same order. */
  lemma ImportWantsTheSame(b: Block, cache: Option<Cache>)
    ensures WantedIds(Layout(b, Extended), cache) == WantedIds(b.inputs, cache)
  {
    PlainBackWants(b, cache);
    WantedTail(PlainBack(b, Extended), FreeBack(b, |FreeSeq(b)|), RedeemBack(b, |b.commands|), cache);
  }

  lemma WantedTail(plain: seq<CallArg>, free: seq<CallArg>, redeemed: seq<CallArg>, cache: Option<Cache>)
    requires forall i :: 0 <= i < |free| ==> !free[i].UnresolvedObject?
    requires forall i :: 0 <= i < |redeemed| ==> !redeemed[i].UnresolvedObject?
    ensures WantedIds(plain + free + redeemed, cache) == WantedIds(plain, cache)
  {
    WantedNoMore(plain, free, cache);
    WantedNoMore(plain + free, redeemed, cache);
  }

  lemma PlainBackWants(b: Block, cache: Option<Cache>)
    ensures WantedIds(PlainBack(b, Extended), cache) == WantedIds(b.inputs, cache)
  {
    var n, back := |b.inputs|, PlainBack(b, Extended);
    BackUpToIsPlain(b, n, PlainSeq(b));
    assert BackUpTo(b, n) == back;
    BackUpToWants(b, n, cache);
    assert b.inputs[..n] == b.inputs;
  }

  /** The types of withdrawals do not matter for what is asked for. */
  lemma {:induction false} WantedAlike(args: seq<CallArg>, rargs: seq<CallArg>, cache: Option<Cache>)
    requires |rargs| == |args| && forall i :: 0 <= i < |args| ==> rargs[i] == RereadArg(args[i])
    ensures WantedIds(rargs, cache) == WantedIds(args, cache)
  {
    if args != [] { WantedAlike(args[..|args| - 1], rargs[..|args| - 1], cache); }
  }

  // ---- one argument --------------------------------------------------------

  /** The command mentions a deferred object whose mutability is lost. */
  predicate MentionsLost(pick: Picker, b: Block, c: nat)
    requires c < |b.commands|
  {
    exists i :: 0 <= i < |b.inputs| && Input(i) in b.commands[c].Args() && LosesMut(pick, b.inputs[i])
  }

  /** The type of every withdrawal that the command mentions, and every type tag that it shows, survives. */
  predicate KeepsTags(b: Block, c: nat)
    requires c < |b.commands|
  {
    && (!IsRedeem(b, c) ==> TagsSurvive(b.commands[c]))
    && forall i :: 0 <= i < |b.inputs| && Input(i) in b.commands[c].Args() ==> TypeKept(b.inputs[i])
  }

  predicate TypeKept(ca: CallArg) {
    ca.FundsWithdrawal? ==> Survives(ca.funds.typ)
  }

  /** An input resolves to what it was, after the trip and its type read back. */
  lemma InputResolved(pick: Picker, ca: CallArg)
    requires Resolves(pick, ca) && (ca.FundsWithdrawal? ==> Returns(ca.funds.typ))
    ensures var back := if ca.FundsWithdrawal? then RereadArg(ca) else AfterJson(ca, Extended);
      ResolvedArg(pick, back) == ResolvedArg(pick, ca) <==> !LosesMut(pick, ca) && TypeKept(ca)
  {
  }

  lemma ArgumentResolved(b: Block, rb: Block, c: nat, a: Argument, pick: Picker, layout: seq<CallArg>)
    requires Exportable(b) && Readable(b) && SamePlaces(b, rb) && rb == Reread(b)
    requires c < |b.commands| && !IsRedeem(b, c) && a in b.commands[c].Args()
    requires AllResolve(pick, b.inputs) && layout == Layout(rb, Extended)
    ensures Denote(ResolvedArgs(pick, layout), ArgBack(rb, c, a)) == Denote(ResolvedArgs(pick, b.inputs), a)
       <==> (a.Input? && a.index < |b.inputs| ==> !LosesMut(pick, b.inputs[a.index]) && TypeKept(b.inputs[a.index]))
  {
    assert CommandInScope(b.commands[c], |b.inputs|, c);
    if a.Input? {
      ExportableElsewhere(b, c, a.index);
      InputDenotes(b, rb, c, a.index, pick, layout, ArgBack(rb, c, a));
    } else {
      ArgBackForm(rb, c, a);
    }
  }

  lemma InputDenotes(b: Block, rb: Block, c: nat, i: nat, pick: Picker, layout: seq<CallArg>, back: Argument)
    requires Readable(b) && SamePlaces(b, rb) && rb == Reread(b) && i < |b.inputs| && i !in Redeemed(b)
    requires AllResolve(pick, b.inputs) && layout == Layout(rb, Extended) && back == ArgBack(rb, c, Input(i))
    ensures Denote(ResolvedArgs(pick, layout), back) == Denote(ResolvedArgs(pick, b.inputs), Input(i))
       <==> !LosesMut(pick, b.inputs[i]) && TypeKept(b.inputs[i])
  {
    ArgBackForm(rb, c, Input(i));
    InputFound(rb, Extended, i, layout, back);
    InputResolved(pick, b.inputs[i]);
    var ca := b.inputs[i];
    DenoteResolved(pick, layout, back, if ca.FundsWithdrawal? then RereadArg(ca) else AfterJson(ca, Extended));
  }

  lemma DenoteResolved(pick: Picker, inputs: seq<CallArg>, a: Argument, ca: CallArg)
    requires Denote(inputs, a) == TheInput(ca)
    ensures Denote(ResolvedArgs(pick, inputs), a) == TheInput(ResolvedArg(pick, ca))
  {
  }

  // ---- one command ---------------------------------------------------------

  /** A renamed command over other inputs means the same exactly if its tags survive and its arguments do. */
  lemma RenamedMeansTheSame(cmd: Command<Argument>, back: Argument -> Argument, before: seq<CallArg>,
                            after: seq<CallArg>)
    requires TagsReturn(cmd)
    ensures DenoteCommand(after, Retag(cmd).Map(back)) == DenoteCommand(before, cmd)
       <==> TagsSurvive(cmd) && forall a :: a in cmd.Args() ==> Denote(after, back(a)) == Denote(before, a)
  {
    var there, here := a => Denote(after, back(a)), a => Denote(before, a);
    MapCompose(Retag(cmd), back, a => Denote(after, a), there);
    RetagAgree(cmd, there, here);
    assert DenoteCommand(before, cmd) == cmd.Map(here);
  }

  lemma KeptResolved(b: Block, rb: Block, c: nat, cmd: Command<Argument>, back: Argument -> Argument, pick: Picker,
                     before: seq<CallArg>, after: seq<CallArg>)
    requires Exportable(b) && Readable(b) && SamePlaces(b, rb) && rb == Reread(b)
    requires c < |b.commands| && !IsRedeem(b, c) && cmd == b.commands[c] && AllResolve(pick, b.inputs)
    requires forall a :: back(a) == ArgBack(rb, c, a)
    requires before == ResolvedArgs(pick, b.inputs) && after == ResolvedArgs(pick, Layout(rb, Extended))
    ensures DenoteCommand(after, Retag(cmd).Map(back)) == DenoteCommand(before, cmd)
       <==> !MentionsLost(pick, b, c) && KeepsTags(b, c)
  {
    RenamedMeansTheSame(cmd, back, before, after);
    forall a | a in cmd.Args()
      ensures a.Input? ==> a.index < |b.inputs|
      ensures Denote(after, back(a)) == Denote(before, a)
         <==> (a.Input? && a.index < |b.inputs| ==> !LosesMut(pick, b.inputs[a.index]) && TypeKept(b.inputs[a.index]))
    {
      assert CommandInScope(cmd, |b.inputs|, c);
      ArgumentResolved(b, rb, c, a, pick, Layout(rb, Extended));
    }
  }

  /** A redeeming call over inputs where its withdrawal is found. */
  lemma CallDenotes(inputs: seq<CallArg>, cmd: Command<Argument>, k: OutputKind, at: nat, w: Withdrawal)
    requires RedeemKind(cmd) == Some(k) && cmd.args == [Input(at)] && at < |inputs| && inputs[at] == FundsWithdrawal(w)
    ensures DenoteCommand(inputs, cmd)
         == MoveCall(FRAMEWORK, KindName(k), "redeem_funds", cmd.typeArgs, [TheInput(FundsWithdrawal(w))])
  {
  }

  lemma RedeemCallKind(k: OutputKind, typ: TypeTag, at: nat)
    ensures RedeemKind(RedeemCall(KindName(k), typ, at)) == Some(k)
  {
  }

  lemma RedeemAfter(rb: Block, c: nat, pick: Picker, rw: Withdrawal, k: OutputKind, after: seq<CallArg>)
    requires IsRedeem(rb, c) && rb.inputs[Candidate(rb, c).value] == FundsWithdrawal(rw) && rw.source == Sender
    requires RedeemKind(rb.commands[c]) == Some(k) && after == ResolvedArgs(pick, Layout(rb, Extended))
    ensures DenoteCommand(after, CommandBack(rb, c))
         == MoveCall(FRAMEWORK, KindName(k), "redeem_funds", [rw.typ], [TheInput(FundsWithdrawal(rw))])
  {
    var at := |PlainSeq(rb)| + |FreeSeq(rb)| + |RedeemSeq(rb, c)|;
    RedeemedPlace(rb, Extended, c);
    assert rw.(source := Sender) == rw;
    RedeemCallKind(k, rw.typ, at);
    CallDenotes(after, RedeemCall(KindName(k), rw.typ, at), k, at, rw);
  }

  lemma RedeemBefore(b: Block, c: nat, pick: Picker, w: Withdrawal, k: OutputKind, before: seq<CallArg>)
    requires Exportable(b) && IsRedeem(b, c) && b.inputs[Candidate(b, c).value] == FundsWithdrawal(w)
    requires RedeemKind(b.commands[c]) == Some(k) && before == ResolvedArgs(pick, b.inputs)
    ensures w.source == Sender && b.commands[c].args == [Input(Candidate(b, c).value)]
    ensures DenoteCommand(before, b.commands[c])
         == MoveCall(FRAMEWORK, KindName(k), "redeem_funds", [w.typ], [TheInput(FundsWithdrawal(w))])
  {
    CallDenotes(before, b.commands[c], k, Candidate(b, c).value, w);
  }

  lemma RedeemResolved(b: Block, rb: Block, c: nat, pick: Picker, before: seq<CallArg>, after: seq<CallArg>)
    requires Exportable(b) && Readable(b) && SamePlaces(b, rb) && rb == Reread(b) && IsRedeem(b, c)
    requires before == ResolvedArgs(pick, b.inputs) && after == ResolvedArgs(pick, Layout(rb, Extended))
    ensures DenoteCommand(after, CommandBack(rb, c)) == DenoteCommand(before, b.commands[c]) <==> KeepsTags(b, c)
    ensures !MentionsLost(pick, b, c)
  {
    assert SameRedeem(b, rb, c);
    var i, k := Candidate(b, c).value, RedeemKind(b.commands[c]).value;
    var w := b.inputs[i].funds;
    RedeemBefore(b, c, pick, w, k, before);
    RedeemAfter(rb, c, pick, Returned(w), k, after);
    RedeemKeeps(b, c, i, pick);
  }

  lemma RedeemKeeps(b: Block, c: nat, i: nat, pick: Picker)
    requires IsRedeem(b, c) && i < |b.inputs| && b.inputs[i].FundsWithdrawal? && b.commands[c].args == [Input(i)]
    ensures KeepsTags(b, c) <==> Survives(b.inputs[i].funds.typ)
    ensures !MentionsLost(pick, b, c)
  {
    assert b.commands[c].Args() == [Input(i)] && Input(i) in b.commands[c].Args();
  }

  lemma CommandResolved(b: Block, rb: Block, c: nat, pick: Picker)
    requires Exportable(b) && Readable(b) && SamePlaces(b, rb) && rb == Reread(b)
    requires c < |b.commands| && AllResolve(pick, b.inputs)
    ensures DenoteCommand(ResolvedArgs(pick, Layout(rb, Extended)), CommandBack(rb, c))
         == DenoteCommand(ResolvedArgs(pick, b.inputs), b.commands[c])
       <==> !MentionsLost(pick, b, c) && KeepsTags(b, c)
  {
    var before, after := ResolvedArgs(pick, b.inputs), ResolvedArgs(pick, Layout(rb, Extended));
    if IsRedeem(b, c) {
      RedeemResolved(b, rb, c, pick, before, after);
    } else {
      var back := a => ArgBack(rb, c, a);
      assert SameRedeem(b, rb, c);
      KeptResolved(b, rb, c, b.commands[c], back, pick, before, after);
      MapAgree(rb.commands[c], back, a => ArgBack(rb, c, a));
    }
  }

  // ---- whole builders ------------------------------------------------------

  lemma RereadResolves(b: Block, pick: Picker)
    ensures AllResolve(pick, Reread(b).inputs) <==> AllResolve(pick, b.inputs)
  {
    forall i | 0 <= i < |b.inputs| ensures Resolves(pick, Reread(b).inputs[i]) <==> Resolves(pick, b.inputs[i]) {}
  }

  lemma InputsComeBack(b: Block, pick: Picker)
    ensures AllResolve(pick, Layout(b, Extended)) <==> AllResolve(pick, b.inputs)
  {
    OrderIsPermutation(b);
    LayoutIsPermuted(b, Extended);
    var layout, order := Layout(b, Extended), Order(b);
    forall k | 0 <= k < |layout| ensures Resolves(pick, layout[k]) <==> Resolves(pick, b.inputs[order[k]]) {
      assert layout[k] == ComeBack(b, Extended, order[k]);
    }
    if AllResolve(pick, layout) {
      forall i | 0 <= i < |b.inputs| ensures Resolves(pick, b.inputs[i]) {
        assert i in order;
        var k :| 0 <= k < |order| && order[k] == i;
        assert Resolves(pick, layout[k]);
      }
    }
  }

  /** Resolution of a builder, said of its call arguments. */
  lemma ResolutionOfArgs(s: BuilderSpec.State, cache: Option<Cache>, client: Client, fetched: Base.Result<seq<Summary>>,
                         o: BuilderSpec.Outcome<()>)
    requires DeferredKeys(s) && o == ResolveDeferred(s, cache, client) && fetched == Fetched(s, cache, client)
    ensures o.state.commands == s.commands
    ensures o.result.Ok? <==> fetched.Ok? && AllResolve(PickFrom(cache, fetched.value), BuilderSpec.CallArgs(s))
    ensures o.result.Ok? ==>
      BuilderSpec.CallArgs(o.state) == ResolvedArgs(PickFrom(cache, fetched.value), BuilderSpec.CallArgs(s))
  {
    if fetched.Ok? {
      var pick, args := PickFrom(cache, fetched.value), BuilderSpec.CallArgs(s);
      forall i | 0 <= i < |s.inputs|
        ensures Resolvable(cache, fetched.value, s.inputs[i]) <==> Resolves(pick, args[i])
      {
        assert args[i] == s.inputs[i].arg;
      }
    }
  }

  lemma SameFetch(b: Block, rb: Block, s: BuilderSpec.State, t: BuilderSpec.State, cache: Option<Cache>,
                  client: Client)
    requires rb == Reread(b)
    requires DeferredKeys(s) && BuilderSpec.CallArgs(s) == b.inputs
    requires DeferredKeys(t) && BuilderSpec.CallArgs(t) == Layout(rb, Extended)
    ensures Fetched(t, cache, client) == Fetched(s, cache, client)
  {
    FetchIdsAreWanted(s.inputs, b.inputs, cache);
    FetchIdsAreWanted(t.inputs, Layout(rb, Extended), cache);
    ImportWantsTheSame(rb, cache);
    WantedAlike(b.inputs, rb.inputs, cache);
  }

  /** A builder `t` that holds the import of what was exported from `s` resolves exactly if `s` does,
      from the same summaries; and then a command means what it meant exactly if its type tags survive
      and it mentions no deferred object that was taken by mutable reference and turns out to be shared. */
  lemma ImportThenResolve(s: BuilderSpec.State, t: BuilderSpec.State, b: Block, cache: Option<Cache>, client: Client,
                          rs: BuilderSpec.Outcome<()>, rt: BuilderSpec.Outcome<()>)
    requires b == Block(BuilderSpec.CallArgs(s), s.commands) && Exportable(b) && DeferredKeys(s) && DeferredKeys(t)
    requires Export(b, Extended).Ok?
    requires Import(Export(b, Extended).value.0, Export(b, Extended).value.1)
          == Ok(Block(BuilderSpec.CallArgs(t), t.commands))
    requires rs == ResolveDeferred(s, cache, client) && rt == ResolveDeferred(t, cache, client)
    ensures rt.result.Ok? <==> rs.result.Ok?
    ensures rs.result.Ok? ==>
      && Fetched(s, cache, client).Ok? && |rt.state.commands| == |rs.state.commands| == |b.commands|
      && forall c :: 0 <= c < |b.commands| ==>
           (DenoteCommand(BuilderSpec.CallArgs(rt.state), rt.state.commands[c])
            == DenoteCommand(BuilderSpec.CallArgs(rs.state), rs.state.commands[c])
            <==> !MentionsLost(PickFrom(cache, Fetched(s, cache, client).value), b, c) && KeepsTags(b, c))
  {
    var rb, fetched := Reread(b), Fetched(s, cache, client);
    ImportOfExport(b, rb, Extended);
    SameFetch(b, rb, s, t, cache, client);
    ResolutionOfArgs(s, cache, client, fetched, rs);
    ResolutionOfArgs(t, cache, client, fetched, rt);
    if fetched.Ok? {
      var pick := PickFrom(cache, fetched.value);
      InputsComeBack(rb, pick);
      RereadResolves(b, pick);
      if rs.result.Ok? { AllCommandsResolved(b, rb, pick, rs.state, rt.state); }
    }
  }

  lemma AllCommandsResolved(b: Block, rb: Block, pick: Picker, s: BuilderSpec.State, t: BuilderSpec.State)
    requires Exportable(b) && Readable(b) && SamePlaces(b, rb) && rb == Reread(b) && AllResolve(pick, b.inputs)
    requires BuilderSpec.CallArgs(s) == ResolvedArgs(pick, b.inputs) && s.commands == b.commands
    requires BuilderSpec.CallArgs(t) == ResolvedArgs(pick, Layout(rb, Extended))
    requires t.commands == CommandsBack(rb, |b.commands|)
    ensures forall c :: 0 <= c < |b.commands| ==>
      (DenoteCommand(BuilderSpec.CallArgs(t), t.commands[c]) == DenoteCommand(BuilderSpec.CallArgs(s), s.commands[c])
       <==> !MentionsLost(pick, b, c) && KeepsTags(b, c))
  {
    forall c | 0 <= c < |b.commands|
      ensures DenoteCommand(BuilderSpec.CallArgs(t), t.commands[c])
           == DenoteCommand(BuilderSpec.CallArgs(s), s.commands[c])
         <==> !MentionsLost(pick, b, c) && KeepsTags(b, c)
    {
      CommandsBackAt(rb, |b.commands|, c);
      CommandResolved(b, rb, c, pick);
    }
  }

  // ---- a mutability that is lost -------------------------------------------

  /** An object taken by mutable reference. */
  function TakenMutably(id: string): CallArg {
    UnresolvedObject(Unresolved(id, false, false, MUT_REF, ""))
  }

  /** One call on such an object. */
  function MutCall(id: string): Block {
    Block([TakenMutably(id)], [MakeMoveVec(None, [Input(0)])])
  }

  lemma MutCallExports(id: string)
    ensures Exportable(MutCall(id)) && TagsLast(MutCall(id)) && KeepsTags(MutCall(id), 0)
  {
    var b := MutCall(id);
    assert b.commands[0].Args() == [Input(0)];
    assert Candidate(b, 0) == None;
  }

  lemma OneResolves(s: BuilderSpec.State, ca: CallArg, id: string, sm: Summary, client: Client,
                    rs: BuilderSpec.Outcome<()>)
    requires DeferredKeys(s) && |s.inputs| == 1 && s.inputs[0].arg == ca && ca.UnresolvedObject? && ca.unres.id == id
    requires ParseAddress(id).Some? && Lower(sm.id) == Lower(id) && client([id]) == Ok([sm])
    requires rs == ResolveDeferred(s, None, client)
    ensures rs.result.Ok? && Fetched(s, None, client) == Ok([sm])
  {
    OneFetched(s, id, sm, client);
    OneCanResolve(ca, sm, BuilderSpec.CallArgs(s), PickFrom(None, [sm]));
    ResolutionOfArgs(s, None, client, Ok([sm]), rs);
  }

  lemma OneFetched(s: BuilderSpec.State, id: string, sm: Summary, client: Client)
    requires |s.inputs| == 1 && IsDeferred(s.inputs[0]) && s.inputs[0].arg.unres.id == id && client([id]) == Ok([sm])
    ensures Fetched(s, None, client) == Ok([sm])
  {
    OneFetchId(s.inputs, id);
  }

  lemma OneCanResolve(ca: CallArg, sm: Summary, args: seq<CallArg>, pick: Picker)
    requires ca.UnresolvedObject? && ParseAddress(ca.unres.id).Some? && Lower(sm.id) == Lower(ca.unres.id)
    requires args == [ca] && pick == PickFrom(None, [sm])
    ensures AllResolve(pick, args)
  {
    PicksOne(sm, ca.unres.id);
  }

  lemma PicksOne(sm: Summary, id: string)
    requires Lower(sm.id) == Lower(id)
    ensures PickFrom(None, [sm])(id) == Some(sm)
  {
    assert LastFetched([sm], id) == Some(sm);
  }

  lemma OneFetchId(inputs: seq<BuilderSpec.Entry>, id: string)
    requires |inputs| == 1 && IsDeferred(inputs[0]) && inputs[0].arg.unres.id == id
    ensures FetchIds(inputs, None) == [id]
  {
    assert inputs[..0] == [];
  }

  lemma MutCallLoses(id: string, sm: Summary)
    requires Lower(sm.id) == Lower(id) && sm.initialShared.Some?
    ensures MentionsLost(PickFrom(None, [sm]), MutCall(id), 0)
  {
    var b := MutCall(id);
    PicksOne(sm, id);
    assert b.commands[0].Args() == [Input(0)];
    assert LosesMut(PickFrom(None, [sm]), b.inputs[0]) && Input(0) in b.commands[0].Args();
  }

  /** A builder with one call on a deferred object that was taken by mutable reference and turns out to
      be shared: it exports, the import resolves as the original does, and the call means something else. */
  lemma MutRefIsLost(id: string, sm: Summary, client: Client, s: BuilderSpec.State, t: BuilderSpec.State, b: Block,
                     rs: BuilderSpec.Outcome<()>, rt: BuilderSpec.Outcome<()>)
    requires ParseAddress(id).Some? && Lower(sm.id) == Lower(id) && sm.initialShared.Some? && client([id]) == Ok([sm])
    requires |s.inputs| == 1 && s.inputs[0].key.KUnresolved?
    requires b == MutCall(id) == Block(BuilderSpec.CallArgs(s), s.commands) && DeferredKeys(t)
    requires Imported(b, t)
    requires rs == ResolveDeferred(s, None, client) && rt == ResolveDeferred(t, None, client)
    ensures Exportable(b) && Export(b, Extended).Ok? && rs.result.Ok? && rt.result.Ok?
    ensures |rs.state.commands| == |rt.state.commands| == 1
    ensures DenoteCommand(BuilderSpec.CallArgs(rt.state), rt.state.commands[0])
         != DenoteCommand(BuilderSpec.CallArgs(rs.state), rs.state.commands[0])
  {
    MutCallExports(id);
    LastingIsReadable(b);
    OneResolves(s, BuilderSpec.CallArgs(s)[0], id, sm, client, rs);
    MutCallLoses(id, sm);
    LostAfterImport(s, t, b, client, [sm], rs, rt);
  }

  /** The builder holds the import of the exported block. */
  predicate Imported(b: Block, t: BuilderSpec.State) {
    Export(b, Extended).Ok? ==>
      Import(Export(b, Extended).value.0, Export(b, Extended).value.1) == Ok(Block(BuilderSpec.CallArgs(t), t.commands))
  }

  lemma LostAfterImport(s: BuilderSpec.State, t: BuilderSpec.State, b: Block, client: Client, fetched: seq<Summary>,
                        rs: BuilderSpec.Outcome<()>, rt: BuilderSpec.Outcome<()>)
    requires b == Block(BuilderSpec.CallArgs(s), s.commands) && Exportable(b) && DeferredKeys(s) && DeferredKeys(t)
    requires Export(b, Extended).Ok? && Imported(b, t) && |b.commands| == 1
    requires rs == ResolveDeferred(s, None, client) && rt == ResolveDeferred(t, None, client)
    requires rs.result.Ok? && Fetched(s, None, client) == Ok(fetched) && MentionsLost(PickFrom(None, fetched), b, 0)
    ensures rt.result.Ok? && |rs.state.commands| == |rt.state.commands| == 1
    ensures DenoteCommand(BuilderSpec.CallArgs(rt.state), rt.state.commands[0])
         != DenoteCommand(BuilderSpec.CallArgs(rs.state), rs.state.commands[0])
  {
    ImportThenResolve(s, t, b, None, client, rs, rt);
  }
}
