// `_process_intents` as the loops of the original, against the specification of the export.

module TxbExport {
  import opened Base
  import opened Ptb
  import opened Json
  import opened TxbJson
  import opened TxbRoundTrip
  import opened TypeTags

  /** The closure `_rewrite`, over the two index dictionaries and the number of prepended intents. */
  function RewriteArg(a: Argument, intents: map<nat, nat>, remap: map<nat, nat>, prepended: nat): Argument {
    match a
    case GasCoin => GasCoin
    case Input(i) =>
      if i in intents then Argument.Result(intents[i])
      else Input(if i in remap then remap[i] else i)
    case Result(c) => Argument.Result(c + prepended)
    case NestedResult(c, s) => NestedResult(c + prepended, s)
  }

  /** `fw` holds the withdrawal inputs, by index. */
  ghost predicate Withdrawals(inputs: seq<CallArg>, n: nat, fw: map<nat, Withdrawal>)
    requires n <= |inputs|
  {
    && (forall i: nat :: i in fw <==> i < n && inputs[i].FundsWithdrawal?)
    && (forall i: nat :: i in fw ==> inputs[i] == FundsWithdrawal(fw[i]))
  }

  /** The inner loop over a call's arguments, which breaks at the first withdrawal. */
  method FindWithdrawal(inputs: seq<CallArg>, args: seq<Argument>, fw: map<nat, Withdrawal>) returns (r: Option<nat>)
    requires Withdrawals(inputs, |inputs|, fw)
    ensures r == FirstWithdrawal(inputs, args)
  {
    r := None;
    for t := 0 to |args|
      invariant FirstWithdrawal(inputs, args) == FirstWithdrawal(inputs, args[t..])
    {
      if args[t].Input? && args[t].index in fw { return Some(args[t].index); }
      assert args[t..][1..] == args[t + 1..];
    }
    assert args[|args|..] == [];
  }

  function Candidates(b: Block): seq<Option<nat>> {
    seq(|b.commands|, c requires 0 <= c < |b.commands| => Candidate(b, c))
  }

  function Kinds(b: Block): seq<Option<OutputKind>> {
    seq(|b.commands|, c requires 0 <= c < |b.commands| => RedeemKind(b.commands[c]))
  }

  /** Each withdrawal in `cwb` is there with the last of the first `n` commands that redeem it. */
  ghost predicate LastAt(cs: seq<Option<nat>>, ks: seq<Option<OutputKind>>, n: nat, cwb: map<nat, (nat, OutputKind)>)
    requires n <= |cs| == |ks|
  {
    && (forall i :: i in cwb ==>
         && cwb[i].0 < n
         && cs[cwb[i].0] == Some(i)
         && ks[cwb[i].0] == Some(cwb[i].1)
         && forall d :: cwb[i].0 < d < n ==> cs[d] != Some(i))
    && (forall d :: 0 <= d < n && cs[d].Some? ==> cs[d].value in cwb)
  }

  ghost predicate LastCandidates(b: Block, n: nat, cwb: map<nat, (nat, OutputKind)>)
    requires n <= |b.commands|
  {
    LastAt(Candidates(b), Kinds(b), n, cwb)
  }

  lemma LastAtStep(cs: seq<Option<nat>>, ks: seq<Option<OutputKind>>, c: nat, cwb: map<nat, (nat, OutputKind)>,
                   next: map<nat, (nat, OutputKind)>)
    requires c < |cs| == |ks| && LastAt(cs, ks, c, cwb)
    requires cs[c].Some? ==> ks[c].Some?
    requires next == if cs[c].Some? then cwb[cs[c].value := (c, ks[c].value)] else cwb
    ensures LastAt(cs, ks, c + 1, next)
  {
  }

  lemma LastCandidateRedeems(b: Block, cwb: map<nat, (nat, OutputKind)>, i: nat)
    requires LastCandidates(b, |b.commands|, cwb)
    ensures i in cwb <==> i in Redeemed(b)
    ensures i in cwb ==> IsRedeem(b, cwb[i].0) && Candidate(b, cwb[i].0) == Some(i)
    ensures i in cwb ==> RedeemKind(b.commands[cwb[i].0]) == Some(cwb[i].1)
    ensures forall c :: RedeemedBy(b, c, i) ==> i in cwb && cwb[i].0 == c
  {
    var cs := Candidates(b);
    if i in Redeemed(b) {
      var c := RedeemingCommand(b, 0, i);
      assert cs[c] == Candidate(b, c);
    }
    if i in cwb { LastCandidateIsRedeem(b, cwb, i); }
    forall c: nat | RedeemedBy(b, c, i) ensures i in cwb && cwb[i].0 == c { assert cs[c] == Candidate(b, c); }
  }

  lemma LastCandidateIsRedeem(b: Block, cwb: map<nat, (nat, OutputKind)>, i: nat)
    requires LastCandidates(b, |b.commands|, cwb) && i in cwb
    ensures i in Redeemed(b) && IsRedeem(b, cwb[i].0) && Candidate(b, cwb[i].0) == Some(i)
    ensures RedeemKind(b.commands[cwb[i].0]) == Some(cwb[i].1)
    ensures forall c :: RedeemedBy(b, c, i) ==> cwb[i].0 == c
  {
    var cs, c := Candidates(b), cwb[i].0;
    assert cs[c] == Candidate(b, c) && Kinds(b)[c] == RedeemKind(b.commands[c]);
    CandidateIsRedeemed(b, 0, c);
    forall d | c < d < |b.commands| ensures Candidate(b, d) != Some(i) { assert cs[d] == Candidate(b, d); }
    if i in RedeemedFrom(b, c + 1) { var d := RedeemingCommand(b, c + 1, i); }
    forall d | RedeemedBy(b, d, i) ensures c == d { RedeemingCommandUnique(b, d, c); }
  }

  /** Which inputs are redeemed, by which command: the last redeeming call of each wins. */
  method ClassifyRedeemed(b: Block, fw: map<nat, Withdrawal>) returns (cwb: map<nat, (nat, OutputKind)>)
    requires Withdrawals(b.inputs, |b.inputs|, fw)
    ensures LastCandidates(b, |b.commands|, cwb)
  {
    cwb := map[];
    for c := 0 to |b.commands|
      invariant LastCandidates(b, c, cwb)
    {
      var kind := RedeemKind(b.commands[c]);
      var found := None;
      if kind.Some? { found := FindWithdrawal(b.inputs, b.commands[c].args, fw); }
      assert Candidates(b)[c] == found && Kinds(b)[c] == kind;
      ghost var before := cwb;
      if found.Some? { cwb := cwb[found.value := (c, kind.value)]; }
      LastAtStep(Candidates(b), Kinds(b), c, before, cwb);
    }
  }

  /** The withdrawal inputs, by index. */
  method CollectWithdrawals(inputs: seq<CallArg>) returns (fw: map<nat, Withdrawal>)
    ensures Withdrawals(inputs, |inputs|, fw)
  {
    fw := map[];
    for i := 0 to |inputs|
      invariant Withdrawals(inputs, i, fw)
    {
      if inputs[i].FundsWithdrawal? { fw := fw[i := inputs[i].funds]; }
    }
  }

  /** `remap` numbers the members of `s` below `n`, in order. */
  ghost predicate Numbered(n: nat, s: set<nat>, remap: map<nat, nat>) {
    && (forall i: nat :: i in remap <==> i < n && i in s)
    && (forall i: nat :: i in remap ==> remap[i] == Rank(i, s))
  }

  lemma PrefixGrow(js: seq<Json>, all: seq<Json>, j: Json)
    requires js <= all && |js| < |all| && all[|js|] == j
    ensures js + [j] <= all
  {
  }

  /** `all` lists one element for each member of `s` below `n`, in order; `js` is the part of it for the
      members below `i`, and `at` their places. */
  ghost predicate Emitted(s: set<nat>, all: seq<Json>, i: nat, js: seq<Json>, at: map<nat, nat>) {
    |js| == Rank(i, s) && js <= all && Numbered(i, s, at)
  }

  /** One turn of a loop that lists the members of `s`. */
  lemma EmittedStep(s: set<nat>, all: seq<Json>, i: nat, js: seq<Json>, at: map<nat, nat>, js': seq<Json>,
                    at': map<nat, nat>)
    requires Emitted(s, all, i, js, at)
    requires i in s ==> Rank(i, s) < |all| && js' == js + [all[Rank(i, s)]] && at' == at[i := |js|]
    requires i !in s ==> js' == js && at' == at
    ensures Emitted(s, all, i + 1, js', at')
  {
    if i in s { PrefixGrow(js, all, all[Rank(i, s)]); }
  }

  /** The new input list and the renumbering of the inputs that stay. */
  method KeepPlainInputs(inputs: seq<CallArg>, fmt: Format, fw: map<nat, Withdrawal>, ghost s: set<nat>,
                         ghost all: seq<Json>)
    returns (js: seq<Json>, remap: map<nat, nat>)
    requires forall i: nat :: i in s <==> i < |inputs| && i !in fw
    requires |all| == Rank(|inputs|, s)
    requires forall i: nat :: i in s ==> Rank(i, s) < |all| && all[Rank(i, s)] == CallArgToJson(inputs[i], fmt)
    ensures js == all && Numbered(|inputs|, s, remap)
  {
    js, remap := [], map[];
    for i := 0 to |inputs|
      invariant Emitted(s, all, i, js, remap)
    {
      ghost var js0, remap0 := js, remap;
      if i !in fw {
        remap := remap[i := |js|];
        js := js + [CallArgToJson(inputs[i], fmt)];
      }
      EmittedStep(s, all, i, js0, remap0, js, remap);
    }
  }

  predicate TypePrints(w: Withdrawal) {
    TagText(w.typ).Ok?
  }

  /** The prepended intents and the result index of each, in input order. */
  method EmitIntents(inputs: seq<CallArg>, fw: map<nat, Withdrawal>, redeemed: set<nat>, ghost s: set<nat>,
                     ghost all: seq<Json>)
    returns (js: seq<Json>, intents: map<nat, nat>)
    requires forall i: nat :: i in s <==> i in fw && i !in redeemed
    requires forall i: nat :: i in fw ==> i < |inputs|
    requires |all| == Rank(|inputs|, s)
    requires forall i: nat :: i in s ==> Rank(i, s) < |all| && i in fw && all[Rank(i, s)] == WithdrawIntent(fw[i])
    ensures js == all && Numbered(|inputs|, s, intents)
  {
    js, intents := [], map[];
    for i := 0 to |inputs|
      invariant Emitted(s, all, i, js, intents)
    {
      ghost var js0, intents0 := js, intents;
      if i in fw && i !in redeemed {
        intents := intents[i := |js|];
        js := js + [WithdrawIntent(fw[i])];
      }
      EmittedStep(s, all, i, js0, intents0, js, intents);
    }
  }

  /** Whether every intent has the text of its type; the first that has none raises. */
  method IntentsPrint(inputs: seq<CallArg>, fw: map<nat, Withdrawal>, redeemed: set<nat>) returns (ok: bool)
    requires forall i: nat :: i in fw ==> i < |inputs|
    ensures ok <==> forall i: nat :: i in fw && i !in redeemed ==> TypePrints(fw[i])
  {
    for i := 0 to |inputs|
      invariant forall k: nat :: k < i && k in fw && k !in redeemed ==> TypePrints(fw[k])
    {
      if i in fw && i !in redeemed && !TypePrints(fw[i]) { return false; }
    }
    return true;
  }

  lemma PlainListed(b: Block, fmt: Format, i: nat)
    requires i in Plain(b)
    ensures Rank(i, Plain(b)) < |ExportInputs(b, fmt)|
    ensures ExportInputs(b, fmt)[Rank(i, Plain(b))] == CallArgToJson(b.inputs[i], fmt)
  {
    RankPosition(|b.inputs|, i, Plain(b));
  }

  lemma FreeListed(b: Block, i: nat)
    requires i in Free(b)
    ensures Rank(i, Free(b)) < |ExportWithdrawals(b)|
    ensures ExportWithdrawals(b)[Rank(i, Free(b))] == WithdrawIntent(b.inputs[i].funds)
  {
    RankPosition(|b.inputs|, i, Free(b));
  }

  /** The type of every withdrawal that becomes a prepended intent has a text. */
  predicate FreePrints(b: Block) {
    forall i :: i in Free(b) ==> TypePrints(b.inputs[i].funds)
  }

  /** The tags that the document shows for the `c`-th command have a text. */
  predicate StepPrints(b: Block, c: nat)
    requires c < |b.commands|
  {
    if IsRedeem(b, c) then TypePrints(b.inputs[Candidate(b, c).value].funds) else CommandPrints(b.commands[c])
  }

  function PrintGoods(b: Block): seq<bool> {
    seq(|b.commands|, c requires 0 <= c < |b.commands| => StepPrints(b, c))
  }

  lemma PrintableSteps(b: Block)
    ensures Printable(b) <==> FreePrints(b) && AllGood(PrintGoods(b), 0)
  {
    var goods := PrintGoods(b);
    if FreePrints(b) && AllGood(goods, 0) {
      forall i | 0 <= i < |b.inputs| && b.inputs[i].FundsWithdrawal? ensures TagText(b.inputs[i].funds.typ).Ok? {
        if i in Redeemed(b) {
          var c := RedeemingCommand(b, 0, i);
          assert goods[c];
        } else {
          assert i in Free(b);
        }
      }
      forall c | 0 <= c < |b.commands| && !IsRedeem(b, c) ensures CommandPrints(b.commands[c]) {
        assert goods[c];
      }
    }
  }

  /** Both loops, on the lists that the export is made of. */
  method EmitBoth(b: Block, fmt: Format, fw: map<nat, Withdrawal>, redeemed: set<nat>)
    returns (js: seq<Json>, remap: map<nat, nat>, prefix: seq<Json>, intents: map<nat, nat>)
    requires Withdrawals(b.inputs, |b.inputs|, fw) && redeemed == Redeemed(b)
    ensures js == ExportInputs(b, fmt) && Numbered(|b.inputs|, Plain(b), remap)
    ensures prefix == ExportWithdrawals(b) && Numbered(|b.inputs|, Free(b), intents)
  {
    forall i | i in Plain(b)
      ensures Rank(i, Plain(b)) < |ExportInputs(b, fmt)|
      ensures ExportInputs(b, fmt)[Rank(i, Plain(b))] == CallArgToJson(b.inputs[i], fmt)
    {
      PlainListed(b, fmt, i);
    }
    forall i | i in Free(b)
      ensures Rank(i, Free(b)) < |ExportWithdrawals(b)|
      ensures ExportWithdrawals(b)[Rank(i, Free(b))] == WithdrawIntent(fw[i])
    {
      FreeListed(b, i);
    }
    js, remap := KeepPlainInputs(b.inputs, fmt, fw, Plain(b), ExportInputs(b, fmt));
    prefix, intents := EmitIntents(b.inputs, fw, redeemed, Free(b), ExportWithdrawals(b));
  }

  /** What a redeeming command redeems, and as what. */
  function Redeeming(b: Block, c: nat): (nat, OutputKind)
    requires IsRedeem(b, c)
  {
    (Candidate(b, c).value, RedeemKind(b.commands[c]).value)
  }

  /** The reverse lookup `cwb_by_cmd`. */
  method ByCommand(b: Block, cwb: map<nat, (nat, OutputKind)>) returns (byCmd: map<nat, (nat, OutputKind)>)
    requires LastCandidates(b, |b.commands|, cwb)
    ensures forall c: nat :: c in byCmd <==> IsRedeem(b, c)
    ensures forall c: nat :: c in byCmd ==> IsRedeem(b, c) && byCmd[c] == Redeeming(b, c)
  {
    byCmd := map[];
    var todo := cwb.Keys;
    while todo != {}
      invariant todo <= cwb.Keys
      invariant forall c: nat :: c in byCmd <==> IsRedeem(b, c) && Candidate(b, c).value in cwb.Keys - todo
      invariant forall c: nat :: c in byCmd ==> IsRedeem(b, c) && byCmd[c] == Redeeming(b, c)
      decreases |todo|
    {
      var i :| i in todo;
      LastCandidateRedeems(b, cwb, i);
      byCmd := byCmd[cwb[i].0 := (i, cwb[i].1)];
      forall c | IsRedeem(b, c) && Candidate(b, c).value == i ensures c == cwb[i].0 { assert RedeemedBy(b, c, i); }
      todo := todo - {i};
    }
    forall c | IsRedeem(b, c) ensures c in byCmd {
      LastCandidateRedeems(b, cwb, Candidate(b, c).value);
      assert RedeemedBy(b, c, Candidate(b, c).value);
    }
  }

  lemma RewriteArgIsArgOut(b: Block, a: Argument, intents: map<nat, nat>, remap: map<nat, nat>)
    requires Numbered(|b.inputs|, Free(b), intents) && Numbered(|b.inputs|, Plain(b), remap)
    ensures RewriteArg(a, intents, remap, |FreeSeq(b)|) == ArgOut(b, a)
  {
  }

  /** Without withdrawals nothing is renumbered. */
  lemma {:induction false} AllPlain(n: nat, s: set<nat>)
    requires forall i :: 0 <= i < n ==> i in s
    ensures |Ascending(n, s)| == n
    ensures forall i :: 0 <= i < n ==> Ascending(n, s)[i] == i
  {
    if n > 0 {
      var before := Ascending(n - 1, s);
      AllPlain(n - 1, s);
      var xs := before + [n - 1];
      forall i | 0 <= i < n ensures xs[i] == i { if i < n - 1 { assert before[i] == i; } }
    }
  }

  lemma NoWithdrawals(b: Block)
    requires forall i :: 0 <= i < |b.inputs| ==> !b.inputs[i].FundsWithdrawal?
    ensures Free(b) == {} && FreeSeq(b) == []
    ensures forall c :: !IsRedeem(b, c)
    ensures |PlainSeq(b)| == |b.inputs| && forall t :: 0 <= t < |b.inputs| ==> PlainSeq(b)[t] == t
  {
    FreeCount(b);
    AllPlain(|b.inputs|, Plain(b));
  }

  lemma NothingRenumbered(b: Block, a: Argument)
    requires forall i :: 0 <= i < |b.inputs| ==> !b.inputs[i].FundsWithdrawal?
    ensures ArgOut(b, a) == a
  {
    NoWithdrawals(b);
    if a.Input? && a.index in Plain(b) { AllPlain(a.index, Plain(b)); }
  }

  lemma PlainExport(b: Block, fmt: Format)
    requires forall i :: 0 <= i < |b.inputs| ==> !b.inputs[i].FundsWithdrawal?
    ensures Export(b, fmt).Ok? <==> forall c :: 0 <= c < |b.commands| ==> CommandPrints(b.commands[c])
    ensures Export(b, fmt).Ok? ==>
      Export(b, fmt) == Ok((MapSeq(b.inputs, ca => CallArgToJson(ca, fmt)),
                            MapSeq(b.commands, (c: Command<Argument>) => CommandToJson(c.Map(ArgToJson)))))
  {
    NoWithdrawals(b);
    assert MapSeq(b.inputs, ca => CallArgToJson(ca, fmt)) == ExportInputs(b, fmt);
    var commands := MapSeq(b.commands, (c: Command<Argument>) => CommandToJson(c.Map(ArgToJson)));
    forall c | 0 <= c < |b.commands| ensures commands[c] == ExportCommand(b, c) {
      forall a: Argument ensures ArgOut(b, a) == a { NothingRenumbered(b, a); }
      MapAgree(b.commands[c], ArgToJson, a => ArgToJson(ArgOut(b, a)));
    }
    assert commands == ExportCommands(b);
  }

  lemma KeptJson(b: Block, c: nat, toJson: Argument -> Json)
    requires c < |b.commands| && !IsRedeem(b, c)
    requires forall a :: toJson(a) == ArgToJson(ArgOut(b, a))
    ensures CommandToJson(b.commands[c].Map(toJson)) == ExportCommand(b, c)
  {
    MapAgree(b.commands[c], toJson, a => ArgToJson(ArgOut(b, a)));
  }

  /** The command that the last loop appends. */
  method EmitCommand(b: Block, c: nat, fw: map<nat, Withdrawal>, byCmd: map<nat, (nat, OutputKind)>,
                     intents: map<nat, nat>, remap: map<nat, nat>, prepended: nat) returns (ok: bool, j: Json)
    requires Withdrawals(b.inputs, |b.inputs|, fw) && c < |b.commands| && prepended == |FreeSeq(b)|
    requires Numbered(|b.inputs|, Free(b), intents) && Numbered(|b.inputs|, Plain(b), remap)
    requires c in byCmd <==> IsRedeem(b, c)
    requires c in byCmd ==> IsRedeem(b, c) && byCmd[c] == (Candidate(b, c).value, RedeemKind(b.commands[c]).value)
    ensures ok <==> StepPrints(b, c)
    ensures ok ==> j == ExportCommand(b, c)
  {
    if c in byCmd {
      ok := TypePrints(fw[byCmd[c].0]);
      j := RedeemIntent(fw[byCmd[c].0], byCmd[c].1);
    } else {
      var toJson := (a: Argument) => ArgToJson(RewriteArg(a, intents, remap, prepended));
      forall a ensures toJson(a) == ArgToJson(ArgOut(b, a)) { RewriteArgIsArgOut(b, a, intents, remap); }
      KeptJson(b, c, toJson);
      ok := CommandPrints(b.commands[c]);
      j := CommandToJson(b.commands[c].Map(toJson));
    }
  }

  /** One turn of the last loop. */
  method EmitNext(b: Block, c: nat, fw: map<nat, Withdrawal>, byCmd: map<nat, (nat, OutputKind)>,
                  intents: map<nat, nat>, remap: map<nat, nat>, prepended: nat, js: seq<Json>, ghost all: seq<Json>)
    returns (ok: bool, next: seq<Json>)
    requires Withdrawals(b.inputs, |b.inputs|, fw) && c < |b.commands| && prepended == |FreeSeq(b)|
    requires Numbered(|b.inputs|, Free(b), intents) && Numbered(|b.inputs|, Plain(b), remap)
    requires c in byCmd <==> IsRedeem(b, c)
    requires c in byCmd ==> IsRedeem(b, c) && byCmd[c] == (Candidate(b, c).value, RedeemKind(b.commands[c]).value)
    requires |js| == prepended + c && js <= all && all == ExportCommands(b)
    ensures ok <==> StepPrints(b, c)
    ensures ok ==> |next| == |js| + 1 && next <= all
  {
    var j;
    ok, j := EmitCommand(b, c, fw, byCmd, intents, remap, prepended);
    next := js + [j];
    if ok {
      ExportedAt(b, c);
      PrefixGrow(js, all, j);
    }
  }

  ghost predicate PrintedUpTo(b: Block, n: nat)
    requires n <= |b.commands|
  {
    forall c :: 0 <= c < n ==> PrintGoods(b)[c]
  }

  /** The final command list: intents in place of redeeming calls, renumbered commands otherwise. */
  method EmitCommands(b: Block, fw: map<nat, Withdrawal>, byCmd: map<nat, (nat, OutputKind)>,
                      intents: map<nat, nat>, remap: map<nat, nat>, prefix: seq<Json>)
    returns (ok: bool, js: seq<Json>)
    requires Withdrawals(b.inputs, |b.inputs|, fw) && prefix == ExportWithdrawals(b)
    requires Numbered(|b.inputs|, Free(b), intents) && Numbered(|b.inputs|, Plain(b), remap)
    requires forall c: nat :: c in byCmd <==> IsRedeem(b, c)
    requires forall c: nat :: c in byCmd ==> IsRedeem(b, c) && byCmd[c] == Redeeming(b, c)
    ensures ok <==> AllGood(PrintGoods(b), 0)
    ensures ok ==> js == ExportCommands(b)
  {
    js, ok := prefix, true;
    ghost var all := ExportCommands(b);
    var c := 0;
    while ok && c < |b.commands|
      invariant c <= |b.commands|
      invariant ok ==> PrintedUpTo(b, c) && |js| == |prefix| + c && js <= all
      invariant !ok ==> !AllGood(PrintGoods(b), 0)
      decreases |b.commands| - c, ok
    {
      ok, js := EmitNext(b, c, fw, byCmd, intents, remap, |prefix|, js, all);
      PrintedNext(b, c, ok);
      if ok { c := c + 1; }
    }
  }

  lemma PrintedNext(b: Block, c: nat, good: bool)
    requires c < |b.commands| && good == StepPrints(b, c) && PrintedUpTo(b, c)
    ensures if good then PrintedUpTo(b, c + 1) else !AllGood(PrintGoods(b), 0)
  {
    assert PrintGoods(b)[c] == good;
  }

  /** `_process_intents`. */
  method ProcessIntents(b: Block, fmt: Format) returns (r: Base.Result<(seq<Json>, seq<Json>)>)
    ensures r.Ok? <==> Export(b, fmt).Ok?
    ensures r.Ok? ==> r == Export(b, fmt)
  {
    var fw := CollectWithdrawals(b.inputs);
    if fw == map[] {
      PlainExport(b, fmt);
      if exists c :: 0 <= c < |b.commands| && !CommandPrints(b.commands[c]) { return Err("unexpected type tag"); }
      return Ok((MapSeq(b.inputs, ca => CallArgToJson(ca, fmt)),
                 MapSeq(b.commands, (c: Command<Argument>) => CommandToJson(c.Map(ArgToJson)))));
    }
    var cwb := ClassifyRedeemed(b, fw);
    forall i ensures i in cwb <==> i in Redeemed(b) { LastCandidateRedeems(b, cwb, i); }
    assert cwb.Keys == Redeemed(b);
    var free := fw.Keys - cwb.Keys;
    assert free == Free(b);
    if fmt.Standard? && free != {} {
      return Err("FundsWithdrawal intent in standard mode");
    }
    r := EmitAll(b, fmt, fw, cwb);
  }

  /** The part that writes the document. */
  method EmitAll(b: Block, fmt: Format, fw: map<nat, Withdrawal>, cwb: map<nat, (nat, OutputKind)>)
    returns (r: Base.Result<(seq<Json>, seq<Json>)>)
    requires Withdrawals(b.inputs, |b.inputs|, fw) && LastCandidates(b, |b.commands|, cwb)
    requires cwb.Keys == Redeemed(b) && (fmt.Standard? ==> Free(b) == {})
    ensures r.Ok? <==> Export(b, fmt).Ok?
    ensures r.Ok? ==> r == Export(b, fmt)
  {
    PrintableSteps(b);
    var ok := IntentsPrint(b.inputs, fw, cwb.Keys);
    assert ok <==> FreePrints(b);
    if !ok { return Err("unexpected type tag"); }
    var inputs, remap, prefix, intents := EmitBoth(b, fmt, fw, cwb.Keys);
    var byCmd := ByCommand(b, cwb);
    var commands;
    ok, commands := EmitCommands(b, fw, byCmd, intents, remap, prefix);
    r := if ok then Ok((inputs, commands)) else Err("unexpected type tag");
  }
}
