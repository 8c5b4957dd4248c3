// Importing an exported block: what comes back, when it means the same, and that its inputs are
// the old ones in another order.

module TxbRoundTrip {
  import opened Base
  import opened Ptb
  import opened Json
  import opened TxbJson
  import opened TypeTags
  import StructTags
  import TypeTagLaws

  // ---- which command redeems which withdrawal ------------------------------

  lemma {:induction false} CandidateIsRedeemed(b: Block, from: nat, c: nat)
    requires from <= c < |b.commands| && Candidate(b, c).Some?
    ensures Candidate(b, c).value in RedeemedFrom(b, from)
    decreases c - from
  {
    if from < c { CandidateIsRedeemed(b, from + 1, c); }
  }

  /** Every redeemed withdrawal has a command that becomes its intent. */
  lemma {:induction false} RedeemingCommand(b: Block, from: nat, i: nat) returns (c: nat)
    requires i in RedeemedFrom(b, from)
    ensures from <= c < |b.commands| && IsRedeem(b, c) && Candidate(b, c).value == i
    decreases |b.commands| - from
  {
    if i in RedeemedFrom(b, from + 1) { c := RedeemingCommand(b, from + 1, i); } else { c := from; }
  }

  lemma RedeemingCommandUnique(b: Block, c: nat, d: nat)
    requires IsRedeem(b, c) && IsRedeem(b, d) && Candidate(b, c) == Candidate(b, d)
    ensures c == d
  {
    if c < d { CandidateIsRedeemed(b, c + 1, d); }
    else if d < c { CandidateIsRedeemed(b, d + 1, c); }
  }

  /** The withdrawals of the intents among the first `c` commands, in command order. */
  function RedeemSeq(b: Block, c: nat): (xs: seq<nat>)
    requires c <= |b.commands|
    ensures forall k :: 0 <= k < |xs| ==> xs[k] < |b.inputs| && b.inputs[xs[k]].FundsWithdrawal?
  {
    if c == 0 then []
    else RedeemSeq(b, c - 1) + (if IsRedeem(b, c - 1) then [Candidate(b, c - 1).value] else [])
  }

  /** Command `d` becomes the intent of withdrawal `i`. */
  predicate RedeemedBy(b: Block, d: nat, i: nat) {
    IsRedeem(b, d) && Candidate(b, d).value == i
  }

  lemma {:induction false} RedeemSeqMember(b: Block, c: nat, k: nat) returns (d: nat)
    requires c <= |b.commands| && k < |RedeemSeq(b, c)|
    ensures d < c && RedeemedBy(b, d, RedeemSeq(b, c)[k])
  {
    if k < |RedeemSeq(b, c - 1)| { d := RedeemSeqMember(b, c - 1, k); } else { d := c - 1; }
  }

  lemma {:induction false} RedeemSeqHas(b: Block, c: nat, d: nat)
    requires d < c <= |b.commands| && IsRedeem(b, d)
    ensures Candidate(b, d).value in RedeemSeq(b, c)
  {
    if d < c - 1 { RedeemSeqHas(b, c - 1, d); }
  }

  lemma {:induction false} RedeemSeqNoDup(b: Block, c: nat)
    requires c <= |b.commands|
    ensures NoDup(RedeemSeq(b, c))
  {
    if c > 0 {
      RedeemSeqNoDup(b, c - 1);
      var r := RedeemSeq(b, c - 1);
      if IsRedeem(b, c - 1) {
        forall k | 0 <= k < |r| ensures r[k] != Candidate(b, c - 1).value {
          var d := RedeemSeqMember(b, c - 1, k);
          if r[k] == Candidate(b, c - 1).value { RedeemingCommandUnique(b, d, c - 1); }
        }
      }
    }
  }

  lemma RedeemSeqIsRedeemed(b: Block)
    ensures forall x :: x in RedeemSeq(b, |b.commands|) <==> x in Redeemed(b)
  {
    var r := RedeemSeq(b, |b.commands|);
    forall x | x in Redeemed(b) ensures x in r {
      var c := RedeemingCommand(b, 0, x);
      RedeemSeqHas(b, |b.commands|, c);
    }
    forall k | 0 <= k < |r| ensures r[k] in Redeemed(b) {
      var d := RedeemSeqMember(b, |b.commands|, k);
      CandidateIsRedeemed(b, 0, d);
    }
  }

  // ---- type tags read back -------------------------------------------------

  function RereadArg(ca: CallArg): CallArg {
    if ca.FundsWithdrawal? then FundsWithdrawal(Returned(ca.funds)) else ca
  }

  /** The block with every type tag that the document shows as it is read back. */
  function Reread(b: Block): (rb: Block)
    ensures |rb.inputs| == |b.inputs| && |rb.commands| == |b.commands|
  {
    Block(seq(|b.inputs|, i requires 0 <= i < |b.inputs| => RereadArg(b.inputs[i])),
          seq(|b.commands|, c requires 0 <= c < |b.commands| =>
            if IsRedeem(b, c) then b.commands[c] else Retag(b.commands[c])))
  }

  /** Two blocks that differ in type tags only. */
  predicate Alike(b: Block, rb: Block) {
    && |rb.inputs| == |b.inputs| && |rb.commands| == |b.commands|
    && (forall i :: 0 <= i < |b.inputs| ==> b.inputs[i].FundsWithdrawal? == rb.inputs[i].FundsWithdrawal?)
    && (forall c :: 0 <= c < |b.commands| ==> AlikeCommands(b.commands[c], rb.commands[c]))
  }

  predicate AlikeCommands(c: Command<Argument>, d: Command<Argument>) {
    RedeemKind(c) == RedeemKind(d) && (RedeemKind(c).Some? ==> c.args == d.args)
  }

  lemma RereadAlike(b: Block)
    ensures Alike(b, Reread(b))
  {
    forall c | 0 <= c < |b.commands| ensures AlikeCommands(b.commands[c], Reread(b).commands[c]) {
      RetagAlike(b.commands[c]);
    }
  }

  lemma RetagAlike(c: Command<Argument>)
    ensures AlikeCommands(c, Retag(c))
  {
  }

  lemma {:induction false} FirstAlike(inputs: seq<CallArg>, rinputs: seq<CallArg>, args: seq<Argument>)
    requires |inputs| == |rinputs|
    requires forall i :: 0 <= i < |inputs| ==> inputs[i].FundsWithdrawal? == rinputs[i].FundsWithdrawal?
    ensures FirstWithdrawal(inputs, args) == FirstWithdrawal(rinputs, args)
  {
    if args != [] { FirstAlike(inputs, rinputs, args[1..]); }
  }

  lemma CandidateAlike(b: Block, rb: Block, c: nat)
    requires Alike(b, rb) && c < |b.commands|
    ensures Candidate(rb, c) == Candidate(b, c)
  {
    assert AlikeCommands(b.commands[c], rb.commands[c]);
    if RedeemKind(b.commands[c]).Some? { FirstAlike(b.inputs, rb.inputs, b.commands[c].args); }
  }

  lemma {:induction false} RedeemedAlike(b: Block, rb: Block, c: nat)
    requires Alike(b, rb)
    ensures RedeemedFrom(rb, c) == RedeemedFrom(b, c)
    decreases |b.commands| - c
  {
    if c < |b.commands| {
      CandidateAlike(b, rb, c);
      RedeemedAlike(b, rb, c + 1);
    }
  }

  /** Which command redeems what, and the places of all inputs, do not depend on type tags. */
  predicate SamePlaces(b: Block, rb: Block) {
    && |rb.inputs| == |b.inputs| && |rb.commands| == |b.commands|
    && Redeemed(rb) == Redeemed(b) && Free(rb) == Free(b) && Plain(rb) == Plain(b)
    && forall c :: 0 <= c < |b.commands| ==> SameRedeem(b, rb, c)
  }

  predicate SameRedeem(b: Block, rb: Block, c: nat)
    requires |rb.commands| == |b.commands| && c < |b.commands|
  {
    && IsRedeem(rb, c) == IsRedeem(b, c) && Candidate(rb, c) == Candidate(b, c)
    && RedeemKind(rb.commands[c]) == RedeemKind(b.commands[c])
  }

  lemma AlikePlaces(b: Block, rb: Block)
    requires Alike(b, rb)
    ensures SamePlaces(b, rb)
  {
    RedeemedAlike(b, rb, 0);
    forall c | 0 <= c < |b.commands| ensures SameRedeem(b, rb, c) {
      assert AlikeCommands(b.commands[c], rb.commands[c]);
      CandidateAlike(b, rb, c);
      RedeemedAlike(b, rb, c + 1);
    }
    assert Plain(rb) == Plain(b) && Free(rb) == Free(b);
  }

  // ---- the order in which the inputs come back -----------------------------

  /** Plain inputs, then free withdrawals, then redeemed ones. */
  function Order(b: Block): seq<nat> {
    PlainSeq(b) + FreeSeq(b) + RedeemSeq(b, |b.commands|)
  }

  lemma NoDupConcat(xs: seq<nat>, ys: seq<nat>)
    requires NoDup(xs) && NoDup(ys)
    requires forall x :: x in xs ==> x !in ys
    ensures NoDup(xs + ys)
  {
    forall i, j | 0 <= i < j < |xs + ys| ensures (xs + ys)[i] != (xs + ys)[j] {
      if i < |xs| <= j { assert xs[i] in xs && ys[j - |xs|] in ys; }
    }
  }

  /** The import only permutes the inputs: `Order` lists every index once. */
  lemma OrderIsPermutation(b: Block)
    ensures NoDup(Order(b)) && |Order(b)| == |b.inputs|
    ensures forall i :: i in Order(b) <==> 0 <= i < |b.inputs|
  {
    RedeemSeqNoDup(b, |b.commands|);
    RedeemSeqIsRedeemed(b);
    var r := RedeemSeq(b, |b.commands|);
    AscendingNoDup(|b.inputs|, Plain(b));
    AscendingNoDup(|b.inputs|, Free(b));
    NoDupConcat(PlainSeq(b), FreeSeq(b));
    NoDupConcat(PlainSeq(b) + FreeSeq(b), r);
    forall i ensures i in Order(b) <==> i in Upto(|b.inputs|) {
      assert i in Order(b) <==> i in PlainSeq(b) || i in FreeSeq(b) || i in r;
    }
    NoDupLength(Order(b), Upto(|b.inputs|));
  }

  /** An input as it comes back: a redeemed withdrawal is drawn from the sender. */
  function ComeBack(b: Block, fmt: Format, i: nat): CallArg
    requires i < |b.inputs|
  {
    if i in Redeemed(b) then FundsWithdrawal(b.inputs[i].funds.(source := Sender))
    else if b.inputs[i].FundsWithdrawal? then b.inputs[i]
    else AfterJson(b.inputs[i], fmt)
  }

  function PlainBack(b: Block, fmt: Format): seq<CallArg> {
    seq(|PlainSeq(b)|, t requires 0 <= t < |PlainSeq(b)| => AfterJson(b.inputs[PlainSeq(b)[t]], fmt))
  }

  function FreeBack(b: Block, n: nat): seq<CallArg>
    requires n <= |FreeSeq(b)|
  {
    seq(n, t requires 0 <= t < n => b.inputs[FreeSeq(b)[t]])
  }

  function RedeemBack(b: Block, c: nat): (xs: seq<CallArg>)
    requires c <= |b.commands|
    ensures |xs| == |RedeemSeq(b, c)|
    ensures forall k :: 0 <= k < |xs| ==>
      xs[k] == FundsWithdrawal(b.inputs[RedeemSeq(b, c)[k]].funds.(source := Sender))
  {
    if c == 0 then []
    else RedeemBack(b, c - 1) +
         (if IsRedeem(b, c - 1) then [FundsWithdrawal(b.inputs[Candidate(b, c - 1).value].funds.(source := Sender))]
          else [])
  }

  /** The inputs after the prepended intents and the first `c` commands have been replayed. */
  function InputsAt(b: Block, fmt: Format, c: nat): seq<CallArg>
    requires c <= |b.commands|
  {
    PlainBack(b, fmt) + FreeBack(b, |FreeSeq(b)|) + RedeemBack(b, c)
  }

  function Layout(b: Block, fmt: Format): seq<CallArg> {
    InputsAt(b, fmt, |b.commands|)
  }

  /** `to` holds what comes back of the inputs that `from` lists. */
  predicate ComesBack(b: Block, fmt: Format, from: seq<nat>, to: seq<CallArg>) {
    && |from| == |to|
    && forall t :: 0 <= t < |from| ==> from[t] < |b.inputs| && to[t] == ComeBack(b, fmt, from[t])
  }

  lemma ComesBackConcat(b: Block, fmt: Format, from: seq<nat>, to: seq<CallArg>, more: seq<nat>, moreTo: seq<CallArg>)
    requires ComesBack(b, fmt, from, to) && ComesBack(b, fmt, more, moreTo)
    ensures ComesBack(b, fmt, from + more, to + moreTo)
  {
  }

  lemma PlainComesBack(b: Block, fmt: Format)
    ensures ComesBack(b, fmt, PlainSeq(b), PlainBack(b, fmt))
  {
    forall t | 0 <= t < |PlainSeq(b)| ensures PlainSeq(b)[t] < |b.inputs| && PlainSeq(b)[t] !in Redeemed(b) {
      assert PlainSeq(b)[t] in Plain(b);
    }
  }

  lemma FreeComesBack(b: Block, fmt: Format)
    ensures ComesBack(b, fmt, FreeSeq(b), FreeBack(b, |FreeSeq(b)|))
  {
    forall t | 0 <= t < |FreeSeq(b)| ensures FreeSeq(b)[t] < |b.inputs| && FreeSeq(b)[t] !in Redeemed(b) {
      assert FreeSeq(b)[t] in Free(b);
    }
  }

  lemma RedeemedComesBack(b: Block, fmt: Format)
    ensures ComesBack(b, fmt, RedeemSeq(b, |b.commands|), RedeemBack(b, |b.commands|))
  {
    var r := RedeemSeq(b, |b.commands|);
    RedeemSeqIsRedeemed(b);
    forall t | 0 <= t < |r| ensures r[t] in Redeemed(b) { assert r[t] in r; }
  }

  /** Each input of the import is one of the old inputs, as it comes back. */
  lemma LayoutIsPermuted(b: Block, fmt: Format)
    ensures |Layout(b, fmt)| == |b.inputs| == |Order(b)|
    ensures forall k :: 0 <= k < |b.inputs| ==>
      Order(b)[k] < |b.inputs| && Layout(b, fmt)[k] == ComeBack(b, fmt, Order(b)[k])
  {
    OrderIsPermutation(b);
    PlainComesBack(b, fmt);
    FreeComesBack(b, fmt);
    RedeemedComesBack(b, fmt);
    var plain, free := PlainBack(b, fmt), FreeBack(b, |FreeSeq(b)|);
    ComesBackConcat(b, fmt, PlainSeq(b), plain, FreeSeq(b), free);
    ComesBackConcat(b, fmt, PlainSeq(b) + FreeSeq(b), plain + free,
                    RedeemSeq(b, |b.commands|), RedeemBack(b, |b.commands|));
    assert ComesBack(b, fmt, Order(b), Layout(b, fmt));
  }

  // ---- replaying the exported commands -------------------------------------

  /** A result map: the first `free` commands became inputs, and `c` commands followed them. */
  function Results(plain: nat, free: nat, c: nat): (m: map<nat, Argument>)
    ensures forall i: nat :: i in m <==> i < free + c
    ensures forall i: nat :: i in m ==> m[i] == if i < free then Input(plain + i) else Argument.Result(i - free)
    decreases free, c
  {
    if c > 0 then Results(plain, free, c - 1)[free + c - 1 := Argument.Result(c - 1)]
    else if free > 0 then Results(plain, free - 1, 0)[free - 1 := Input(plain + free - 1)]
    else map[]
  }

  /** The result map once the intents and the first `c` commands have been replayed. */
  function ResultMap(b: Block, c: nat): map<nat, Argument> {
    Results(|PlainSeq(b)|, |FreeSeq(b)|, c)
  }

  /** The argument that comes back for an argument of the `c`-th command. */
  function ArgBack(b: Block, c: nat, a: Argument): Argument {
    Substitute(ArgOut(b, a), ResultMap(b, c))
  }

  /** The command that comes back for the `c`-th command. */
  function CommandBack(b: Block, c: nat): Command<Argument>
    requires c < |b.commands|
  {
    if IsRedeem(b, c) then
      RedeemCall(KindName(RedeemKind(b.commands[c]).value), b.inputs[Candidate(b, c).value].funds.typ,
                 |PlainSeq(b)| + |FreeSeq(b)| + |RedeemSeq(b, c)|)
    else b.commands[c].Map(a => ArgBack(b, c, a))
  }

  function CommandsBack(b: Block, c: nat): (cs: seq<Command<Argument>>)
    requires c <= |b.commands|
    ensures |cs| == c
  {
    if c == 0 then [] else CommandsBack(b, c - 1) + [CommandBack(b, c - 1)]
  }

  /** A step of the replay succeeds exactly if `good`, and then leads to `next`. */
  predicate Leads(r: Base.Result<ImportState>, good: bool, next: ImportState) {
    (r.Ok? <==> good) && (r.Ok? ==> r.value == next)
  }

  lemma WithdrawDataReads(w: Withdrawal, data: map<string, Json>, typ: Base.Result<TypeTag>)
    requires "amount" in data && NatOf(data["amount"]) == Ok(w.amount)
    requires "type" in data && TagOf(data["type"]) == typ
    requires "source" in data && data["source"] == Str(SourceName(w.source))
    ensures WithdrawData(data).Ok? <==> typ.Ok?
    ensures WithdrawData(data).Ok? ==> WithdrawData(data).value == w.(typ := typ.value)
  {
  }

  function WithdrawNext(st: ImportState, idx: nat, w: Withdrawal): ImportState {
    ImportState(AddInput(st, w), st.rm[idx := Input(|st.block.inputs|)])
  }

  /** The intent of withdrawal `w` stands for `rw`, the withdrawal with its type read back. */
  lemma WithdrawIntentReplays(st: ImportState, idx: nat, w: Withdrawal, rw: Withdrawal, next: ImportState)
    requires rw == Returned(w) && next == WithdrawNext(st, idx, rw)
    ensures Leads(ImportCommand(st, idx, WithdrawIntent(w)), Returns(w.typ), next)
  {
    var data := map["amount" := Str(Decimal(w.amount)), "type" := Str(TagString(w.typ)),
                    "source" := Str(SourceName(w.source))];
    assert data["amount"] == Str(Decimal(w.amount)) && data["source"] == Str(SourceName(w.source));
    assert data["type"] == Str(TagString(w.typ));
    ParseDecimalInverse(w.amount);
    StringRead(w.typ);
    WithdrawDataReads(w, data, ReadTag(TagString(w.typ)));
    var intent := WithdrawIntent(w).fields["$Intent"];
    assert intent.fields["name"] == Str("FundsWithdrawal") && intent.fields["data"] == Obj(data);
  }

  function RedeemNext(st: ImportState, idx: nat, w: Withdrawal, k: OutputKind): ImportState {
    ImportState(Block(AddInput(st, w.(source := Sender)).inputs,
                      st.block.commands + [RedeemCall(KindName(k), w.typ, |st.block.inputs|)]),
                st.rm[idx := Argument.Result(|st.block.commands|)])
  }

  lemma RedeemDataReads(w: Withdrawal, data: map<string, Json>, typ: Base.Result<TypeTag>)
    requires "balance" in data && NatOf(data["balance"]) == Ok(w.amount)
    requires "type" in data && data["type"].Str? && data["type"].s != "" && TagOf(data["type"]) == typ
    ensures RedeemData(data).Ok? <==> typ.Ok?
    ensures RedeemData(data).Ok? ==> RedeemData(data).value == w.(typ := typ.value, source := Sender)
  {
  }

  lemma RedeemIntentReplays(st: ImportState, idx: nat, w: Withdrawal, rw: Withdrawal, k: OutputKind,
                            next: ImportState)
    requires rw == Returned(w) && next == RedeemNext(st, idx, rw, k)
    ensures Leads(ImportCommand(st, idx, RedeemIntent(w, k)), Returns(w.typ), next)
  {
    var data := map["balance" := Str(Decimal(w.amount)), "type" := Str(TagString(w.typ)),
                    "outputKind" := Str(KindName(k))];
    assert data["balance"] == Str(Decimal(w.amount)) && data["outputKind"] == Str(KindName(k));
    assert data["type"] == Str(TagString(w.typ));
    ParseDecimalInverse(w.amount);
    StringRead(w.typ);
    RedeemDataReads(w, data, ReadTag(TagString(w.typ)));
    var intent := RedeemIntent(w, k).fields["$Intent"];
    assert "FundsWithdrawal"[0] != "CoinWithBalance"[0];
    assert intent.fields["name"] == Str("CoinWithBalance") && intent.fields["data"] == Obj(data);
  }

  function KeptNext(st: ImportState, idx: nat, c: Command<Argument>): ImportState {
    ImportState(Block(st.block.inputs, st.block.commands + [c]), st.rm[idx := Argument.Result(|st.block.commands|)])
  }

  /** A kept command comes back with its renumbered arguments substituted, as `rc`. */
  lemma KeptCommandReplays(st: ImportState, idx: nat, c: Command<Argument>, rc: Command<Argument>,
                           out: Argument -> Argument, toJson: Argument -> Json, back: Argument -> Argument, j: Json,
                           next: ImportState)
    requires j == CommandToJson(c.Map(toJson)) && rc == Retag(c)
    requires forall a :: toJson(a) == ArgToJson(out(a))
    requires forall a :: back(a) == Substitute(out(a), st.rm)
    requires next == KeptNext(st, idx, rc.Map(back))
    ensures Leads(ImportCommand(st, idx, j), TagsReturn(c), next)
  {
    MapCompose(c, out, ArgToJson, toJson);
    RewritePrintedCommand(c.Map(out), st.rm);
    RetagMap(c, out);
    MapCompose(rc, out, a => Substitute(a, st.rm), back);
    NoIntentKey(c.Map(toJson));
  }

  lemma RetagMap(c: Command<Argument>, out: Argument -> Argument)
    ensures Retag(c.Map(out)) == Retag(c).Map(out)
    ensures TagsReturn(c.Map(out)) <==> TagsReturn(c)
  {
    assert TagsOf(c.Map(out)) == TagsOf(c);
  }

  lemma NoIntentKey(c: Command<Json>)
    ensures CommandToJson(c).Obj? && "$Intent" !in CommandToJson(c).fields
  {
  }

  /** The state of the replay after the intents and the first `c` commands. */
  function StateAt(b: Block, fmt: Format, c: nat): ImportState
    requires c <= |b.commands|
  {
    ImportState(Block(InputsAt(b, fmt, c), CommandsBack(b, c)), ResultMap(b, c))
  }

  /** The state of the replay after the first `t` prepended intents. */
  function StateBefore(b: Block, fmt: Format, t: nat): ImportState
    requires t <= |FreeSeq(b)|
  {
    ImportState(Block(PlainBack(b, fmt) + FreeBack(b, t), []), Results(|PlainSeq(b)|, t, 0))
  }

  lemma BeforeGrows(b: Block, fmt: Format, t: nat, w: Withdrawal)
    requires t < |FreeSeq(b)| && b.inputs[FreeSeq(b)[t]] == FundsWithdrawal(w)
    ensures StateBefore(b, fmt, t + 1).block == AddInput(StateBefore(b, fmt, t), w)
    ensures var before := StateBefore(b, fmt, t);
      StateBefore(b, fmt, t + 1).rm == before.rm[t := Input(|before.block.inputs|)]
  {
    assert FreeBack(b, t + 1) == FreeBack(b, t) + [FundsWithdrawal(w)];
    assert PlainBack(b, fmt) + FreeBack(b, t + 1) == PlainBack(b, fmt) + FreeBack(b, t) + [FundsWithdrawal(w)];
    assert |PlainBack(b, fmt) + FreeBack(b, t)| == |PlainSeq(b)| + t;
  }

  /** The type of the `t`-th free withdrawal comes back. */
  predicate FreeReads(b: Block, t: nat)
    requires t < |FreeSeq(b)|
  {
    Returns(b.inputs[FreeSeq(b)[t]].funds.typ)
  }

  /** In what follows, `b` is exported and `rb` is the block with its tags as they are read back. */
  lemma WithdrawalReplays(b: Block, rb: Block, fmt: Format, t: nat, j: Json, next: ImportState)
    requires SamePlaces(b, rb) && t < |FreeSeq(b)|
    requires j == ExportWithdrawals(b)[t] && next == StateBefore(rb, fmt, t + 1)
    requires rb.inputs[FreeSeq(b)[t]] == FundsWithdrawal(Returned(b.inputs[FreeSeq(b)[t]].funds))
    ensures Leads(ImportCommand(StateBefore(rb, fmt, t), t, j), FreeReads(b, t), next)
  {
    var w := b.inputs[FreeSeq(b)[t]].funds;
    BeforeGrows(rb, fmt, t, Returned(w));
    WithdrawIntentReplays(StateBefore(rb, fmt, t), t, w, Returned(w), next);
  }

  lemma StatesMeet(b: Block, fmt: Format)
    ensures StateBefore(b, fmt, |FreeSeq(b)|) == StateAt(b, fmt, 0)
  {
    assert StateBefore(b, fmt, |FreeSeq(b)|).block == StateAt(b, fmt, 0).block;
    assert StateBefore(b, fmt, |FreeSeq(b)|).rm == StateAt(b, fmt, 0).rm;
  }

  lemma ResultMapGrow(b: Block, c: nat)
    ensures ResultMap(b, c + 1) == ResultMap(b, c)[|FreeSeq(b)| + c := Argument.Result(c)]
  {
  }

  lemma InputsAtGrow(b: Block, fmt: Format, c: nat)
    requires c < |b.commands|
    ensures |InputsAt(b, fmt, c)| == |PlainSeq(b)| + |FreeSeq(b)| + |RedeemSeq(b, c)|
    ensures InputsAt(b, fmt, c + 1) == InputsAt(b, fmt, c) +
      (if IsRedeem(b, c) then [FundsWithdrawal(b.inputs[Candidate(b, c).value].funds.(source := Sender))] else [])
  {
  }

  /** A command appended to a state of the replay, with the inputs it brings. */
  predicate Appended(st: ImportState, idx: nat, more: seq<CallArg>, cmd: Command<Argument>, next: ImportState) {
    next == ImportState(Block(st.block.inputs + more, st.block.commands + [cmd]),
                        st.rm[idx := Argument.Result(|st.block.commands|)])
  }

  /** One more command of the replay, apart from what kind it is. */
  lemma StateAtGrows(b: Block, fmt: Format, c: nat, more: seq<CallArg>, cmd: Command<Argument>,
                     st: ImportState, next: ImportState)
    requires c < |b.commands| && cmd == CommandBack(b, c)
    requires more == if IsRedeem(b, c) then [FundsWithdrawal(b.inputs[Candidate(b, c).value].funds.(source := Sender))]
                     else []
    requires st == StateAt(b, fmt, c) && next == StateAt(b, fmt, c + 1)
    ensures |st.block.inputs| == |PlainSeq(b)| + |FreeSeq(b)| + |RedeemSeq(b, c)|
    ensures Appended(st, |FreeSeq(b)| + c, more, cmd, next)
  {
    ResultMapGrow(b, c);
    InputsAtGrow(b, fmt, c);
  }

  lemma RedeemForms(b: Block, c: nat, w: Withdrawal, k: OutputKind, at: nat, cmd: Command<Argument>)
    requires c < |b.commands| && IsRedeem(b, c) && at == |PlainSeq(b)| + |FreeSeq(b)| + |RedeemSeq(b, c)|
    requires b.inputs[Candidate(b, c).value] == FundsWithdrawal(w) && RedeemKind(b.commands[c]) == Some(k)
    requires cmd == RedeemCall(KindName(k), w.typ, at)
    ensures CommandBack(b, c) == cmd
  {
  }

  lemma RedeemAppends(st: ImportState, idx: nat, w: Withdrawal, k: OutputKind, at: nat, next: ImportState)
    requires at == |st.block.inputs|
    requires Appended(st, idx, [FundsWithdrawal(w.(source := Sender))], RedeemCall(KindName(k), w.typ, at), next)
    ensures next == RedeemNext(st, idx, w, k)
  {
  }

  lemma StateAfterRedeem(b: Block, fmt: Format, c: nat, w: Withdrawal, k: OutputKind,
                         st: ImportState, idx: nat, next: ImportState)
    requires c < |b.commands| && IsRedeem(b, c) && idx == |FreeSeq(b)| + c
    requires b.inputs[Candidate(b, c).value] == FundsWithdrawal(w) && RedeemKind(b.commands[c]) == Some(k)
    requires st == StateAt(b, fmt, c) && next == StateAt(b, fmt, c + 1)
    ensures next == RedeemNext(st, idx, w, k)
  {
    var at := |PlainSeq(b)| + |FreeSeq(b)| + |RedeemSeq(b, c)|;
    var cmd, more := RedeemCall(KindName(k), w.typ, at), [FundsWithdrawal(w.(source := Sender))];
    RedeemForms(b, c, w, k, at, cmd);
    StateAtGrows(b, fmt, c, more, cmd, st, next);
    RedeemAppends(st, idx, w, k, at, next);
  }

  lemma KeptAppends(st: ImportState, idx: nat, cmd: Command<Argument>, next: ImportState)
    requires Appended(st, idx, [], cmd, next)
    ensures next == KeptNext(st, idx, cmd)
  {
    assert st.block.inputs + [] == st.block.inputs;
  }

  lemma StateAfterKept(b: Block, fmt: Format, c: nat, st: ImportState, idx: nat, next: ImportState,
                       cmd: Command<Argument>)
    requires c < |b.commands| && !IsRedeem(b, c) && idx == |FreeSeq(b)| + c && cmd == CommandBack(b, c)
    requires st == StateAt(b, fmt, c) && next == StateAt(b, fmt, c + 1)
    ensures next == KeptNext(st, idx, cmd)
  {
    StateAtGrows(b, fmt, c, [], cmd, st, next);
    KeptAppends(st, idx, cmd, next);
  }

  lemma RedeemReplays(b: Block, rb: Block, fmt: Format, c: nat, st: ImportState, idx: nat, j: Json, next: ImportState,
                      w: Withdrawal, rw: Withdrawal)
    requires SamePlaces(b, rb) && c < |b.commands| && IsRedeem(b, c)
    requires j == ExportCommand(b, c) && idx == |FreeSeq(b)| + c
    requires st == StateAt(rb, fmt, c) && next == StateAt(rb, fmt, c + 1)
    requires b.inputs[Candidate(b, c).value] == FundsWithdrawal(w)
    requires rb.inputs[Candidate(b, c).value] == FundsWithdrawal(rw) && rw == Returned(w)
    ensures Leads(ImportCommand(st, idx, j), Returns(w.typ), next)
  {
    var k := RedeemKind(b.commands[c]).value;
    assert SameRedeem(b, rb, c);
    StateAfterRedeem(rb, fmt, c, rw, k, st, idx, next);
    RedeemIntentReplays(st, idx, w, rw, k, next);
  }

  lemma KeptForms(b: Block, rb: Block, c: nat, toJson: Argument -> Json, back: Argument -> Argument)
    requires SamePlaces(b, rb) && c < |b.commands| && !IsRedeem(b, c)
    requires forall a :: toJson(a) == ArgToJson(ArgOut(b, a))
    requires forall a :: back(a) == ArgBack(rb, c, a)
    ensures ExportCommand(b, c) == CommandToJson(b.commands[c].Map(toJson))
    ensures CommandBack(rb, c) == rb.commands[c].Map(back)
  {
    assert SameRedeem(b, rb, c);
    MapAgree(b.commands[c], toJson, a => ArgToJson(ArgOut(b, a)));
    MapAgree(rb.commands[c], back, a => ArgBack(rb, c, a));
  }

  lemma SameOut(b: Block, rb: Block, a: Argument)
    requires SamePlaces(b, rb)
    ensures ArgOut(rb, a) == ArgOut(b, a)
  {
  }

  lemma KeptReplays(b: Block, rb: Block, fmt: Format, c: nat, st: ImportState, idx: nat, j: Json, next: ImportState)
    requires SamePlaces(b, rb) && c < |b.commands| && !IsRedeem(b, c) && rb.commands[c] == Retag(b.commands[c])
    requires j == ExportCommand(b, c) && idx == |FreeSeq(b)| + c
    requires st == StateAt(rb, fmt, c) && next == StateAt(rb, fmt, c + 1)
    ensures Leads(ImportCommand(st, idx, j), TagsReturn(b.commands[c]), next)
  {
    var out, toJson, back := a => ArgOut(b, a), a => ArgToJson(ArgOut(b, a)), a => ArgBack(rb, c, a);
    var rc := rb.commands[c];
    assert j == CommandToJson(b.commands[c].Map(toJson)) && CommandBack(rb, c) == rc.Map(back) by {
      KeptForms(b, rb, c, toJson, back);
    }
    assert SameRedeem(b, rb, c);
    StateAfterKept(rb, fmt, c, st, idx, next, CommandBack(rb, c));
    assert forall a :: toJson(a) == ArgToJson(out(a));
    forall a ensures back(a) == Substitute(out(a), st.rm) { SameOut(b, rb, a); }
    KeptCommandReplays(st, idx, b.commands[c], rc, out, toJson, back, j, next);
  }

  lemma ExportedAt(b: Block, c: nat)
    requires c < |b.commands|
    ensures |ExportCommands(b)| == |FreeSeq(b)| + |b.commands|
    ensures ExportCommands(b)[|FreeSeq(b)| + c] == ExportCommand(b, c)
  {
    assert ExportCommands(b)[|ExportWithdrawals(b)| + c] == ExportBodies(b)[c];
  }

  /** The type tags that the document shows for the `c`-th command come back. */
  predicate StepReads(b: Block, c: nat)
    requires c < |b.commands|
  {
    if IsRedeem(b, c) then Returns(b.inputs[Candidate(b, c).value].funds.typ) else TagsReturn(b.commands[c])
  }

  lemma CommandReplays(b: Block, rb: Block, fmt: Format, c: nat, st: ImportState, idx: nat, j: Json, next: ImportState)
    requires SamePlaces(b, rb) && rb == Reread(b)
    requires c < |b.commands| && j == ExportCommand(b, c) && idx == |FreeSeq(b)| + c
    requires st == StateAt(rb, fmt, c) && next == StateAt(rb, fmt, c + 1)
    ensures Leads(ImportCommand(st, idx, j), StepReads(b, c), next)
  {
    if IsRedeem(b, c) {
      var w := b.inputs[Candidate(b, c).value].funds;
      RedeemReplays(b, rb, fmt, c, st, idx, j, next, w, Returned(w));
    } else {
      KeptReplays(b, rb, fmt, c, st, idx, j, next);
    }
  }

  /** A turn of the replay at `t`: on to the next state if it reads, and otherwise the replay fails. */
  predicate Turns(step: ImportStep, js: seq<Json>, t: nat, st: ImportState, good: bool, next: ImportState) {
    if good then Replay(step, st, js, t) == Replay(step, next, js, t + 1) else Replay(step, st, js, t).Err?
  }

  /** Each command of a stretch from `off` on takes the replay from one state to the next. */
  ghost predicate AllTurn(step: ImportStep, js: seq<Json>, states: seq<ImportState>, goods: seq<bool>, off: nat) {
    && |states| == |goods| + 1 && off + |goods| <= |js|
    && forall i :: 0 <= i < |goods| ==> Turns(step, js, off + i, states[i], goods[i], states[i + 1])
  }

  /** The `i`-th step of the stretch. */
  predicate StepLeads(step: ImportStep, js: seq<Json>, states: seq<ImportState>, goods: seq<bool>, off: nat, i: nat)
    requires |states| == |goods| + 1 && off + |goods| <= |js| && i < |goods|
  {
    Leads(step(states[i], off + i, js[off + i]), goods[i], states[i + 1])
  }

  /** Each command does so whose step is known. */
  lemma StepsTurn(step: ImportStep, js: seq<Json>, states: seq<ImportState>, goods: seq<bool>, off: nat)
    requires |states| == |goods| + 1 && off + |goods| <= |js|
    requires forall i :: 0 <= i < |goods| ==> StepLeads(step, js, states, goods, off, i)
    ensures AllTurn(step, js, states, goods, off)
  {
    forall i | 0 <= i < |goods| ensures Turns(step, js, off + i, states[i], goods[i], states[i + 1]) {
      assert StepLeads(step, js, states, goods, off, i);
    }
  }

  ghost predicate AllGood(goods: seq<bool>, from: nat) {
    forall i :: from <= i < |goods| ==> goods[i]
  }

  /** A stretch of the replay is known once the state before each of its commands is known. */
  lemma {:induction false} ReplayThrough(step: ImportStep, js: seq<Json>, states: seq<ImportState>, goods: seq<bool>,
                                         off: nat, t: nat)
    requires AllTurn(step, js, states, goods, off) && t <= |goods|
    ensures AllGood(goods, t) ==>
      Replay(step, states[t], js, off + t) == Replay(step, states[|goods|], js, off + |goods|)
    ensures !AllGood(goods, t) ==> Replay(step, states[t], js, off + t).Err?
    decreases |goods| - t
  {
    if t < |goods| {
      assert Turns(step, js, off + t, states[t], goods[t], states[t + 1]);
      assert AllGood(goods, t) <==> goods[t] && AllGood(goods, t + 1);
      ReplayThrough(step, js, states, goods, off, t + 1);
    }
  }

  /** `step` is the replay of one command. */
  ghost predicate Imports(step: ImportStep) {
    forall st, idx, j {:trigger ImportCommand(st, idx, j)} :: step(st, idx, j) == ImportCommand(st, idx, j)
  }

  lemma WithdrawalStep(b: Block, rb: Block, fmt: Format, step: ImportStep, t: nat, j: Json,
                       st: ImportState, good: bool, next: ImportState)
    requires SamePlaces(b, rb) && rb == Reread(b)
    requires Imports(step) && t < |FreeSeq(b)| && j == ExportWithdrawals(b)[t]
    requires st == StateBefore(rb, fmt, t) && next == StateBefore(rb, fmt, t + 1) && good == FreeReads(b, t)
    ensures Leads(step(st, t, j), good, next)
  {
    WithdrawalReplays(b, rb, fmt, t, j, next);
  }

  lemma CommandStep(b: Block, rb: Block, fmt: Format, step: ImportStep, idx: nat, c: nat, j: Json,
                    st: ImportState, good: bool, next: ImportState)
    requires SamePlaces(b, rb) && rb == Reread(b)
    requires Imports(step) && c < |b.commands| && idx == |FreeSeq(b)| + c && j == ExportCommand(b, c)
    requires st == StateAt(rb, fmt, c) && next == StateAt(rb, fmt, c + 1) && good == StepReads(b, c)
    ensures Leads(step(st, idx, j), good, next)
  {
    CommandReplays(b, rb, fmt, c, st, idx, j, next);
  }

  function FreeGoods(b: Block): seq<bool> {
    seq(|FreeSeq(b)|, t requires 0 <= t < |FreeSeq(b)| => FreeReads(b, t))
  }

  function StepGoods(b: Block): seq<bool> {
    seq(|b.commands|, c requires 0 <= c < |b.commands| => StepReads(b, c))
  }

  function StatesBefore(b: Block, fmt: Format): seq<ImportState> {
    seq(|FreeSeq(b)| + 1, t requires 0 <= t <= |FreeSeq(b)| => StateBefore(b, fmt, t))
  }

  function StatesAt(b: Block, fmt: Format): seq<ImportState> {
    seq(|b.commands| + 1, c requires 0 <= c <= |b.commands| => StateAt(b, fmt, c))
  }

  lemma WithdrawalsLead(b: Block, rb: Block, fmt: Format, step: ImportStep, js: seq<Json>, states: seq<ImportState>,
                        goods: seq<bool>)
    requires SamePlaces(b, rb) && rb == Reread(b) && Imports(step) && js == ExportCommands(b)
    requires states == StatesBefore(rb, fmt) && goods == FreeGoods(b)
    ensures |js| == |goods| + |b.commands|
    ensures forall t :: 0 <= t < |goods| ==> StepLeads(step, js, states, goods, 0, t)
  {
    forall t | 0 <= t < |goods| ensures StepLeads(step, js, states, goods, 0, t) {
      WithdrawalStep(b, rb, fmt, step, t, js[t], states[t], goods[t], states[t + 1]);
    }
  }

  lemma WithdrawalsTaken(b: Block, rb: Block, fmt: Format, step: ImportStep, js: seq<Json>, states: seq<ImportState>,
                         goods: seq<bool>)
    requires SamePlaces(b, rb) && rb == Reread(b) && Imports(step) && js == ExportCommands(b)
    requires states == StatesBefore(rb, fmt) && goods == FreeGoods(b)
    ensures AllTurn(step, js, states, goods, 0)
  {
    WithdrawalsLead(b, rb, fmt, step, js, states, goods);
    StepsTurn(step, js, states, goods, 0);
  }

  lemma CommandLeads(b: Block, rb: Block, fmt: Format, step: ImportStep, js: seq<Json>, k: nat,
                     states: seq<ImportState>, goods: seq<bool>, c: nat)
    requires SamePlaces(b, rb) && rb == Reread(b) && Imports(step) && c < |b.commands| && k == |FreeSeq(b)|
    requires |js| == k + |b.commands| && js[k + c] == ExportCommand(b, c)
    requires |states| == |b.commands| + 1 == |goods| + 1 && goods[c] == StepReads(b, c)
    requires states[c] == StateAt(rb, fmt, c) && states[c + 1] == StateAt(rb, fmt, c + 1)
    ensures StepLeads(step, js, states, goods, k, c)
  {
    CommandStep(b, rb, fmt, step, k + c, c, js[k + c], states[c], goods[c], states[c + 1]);
  }

  lemma CommandsLead(b: Block, rb: Block, fmt: Format, step: ImportStep, js: seq<Json>, k: nat,
                     states: seq<ImportState>, goods: seq<bool>)
    requires SamePlaces(b, rb) && rb == Reread(b) && Imports(step) && js == ExportCommands(b)
    requires k == |FreeSeq(b)| && |js| == k + |b.commands|
    requires |states| == |b.commands| + 1 == |goods| + 1
    requires forall c :: 0 <= c <= |b.commands| ==> states[c] == StateAt(rb, fmt, c)
    requires forall c :: 0 <= c < |b.commands| ==> goods[c] == StepReads(b, c)
    ensures forall c :: 0 <= c < |goods| ==> StepLeads(step, js, states, goods, k, c)
  {
    forall c | 0 <= c < |goods| ensures StepLeads(step, js, states, goods, k, c) {
      ExportedAt(b, c);
      CommandLeads(b, rb, fmt, step, js, k, states, goods, c);
    }
  }

  lemma CommandsTaken(b: Block, rb: Block, fmt: Format, step: ImportStep, js: seq<Json>, k: nat,
                      states: seq<ImportState>, goods: seq<bool>)
    requires SamePlaces(b, rb) && rb == Reread(b) && Imports(step) && js == ExportCommands(b)
    requires k == |FreeSeq(b)| && |js| == k + |b.commands|
    requires states == StatesAt(rb, fmt) && goods == StepGoods(b)
    ensures AllTurn(step, js, states, goods, k)
  {
    CommandsLead(b, rb, fmt, step, js, k, states, goods);
    StepsTurn(step, js, states, goods, k);
  }

  /** Both stretches together. */
  lemma StretchesJoin(step: ImportStep, js: seq<Json>, before: seq<ImportState>, free: seq<bool>,
                      after: seq<ImportState>, rest: seq<bool>)
    requires AllTurn(step, js, before, free, 0) && AllTurn(step, js, after, rest, |free|)
    requires |js| == |free| + |rest| && before[|free|] == after[0]
    ensures Leads(Replay(step, before[0], js, 0), AllGood(free, 0) && AllGood(rest, 0), after[|rest|])
  {
    ReplayThrough(step, js, before, free, 0, 0);
    ReplayThrough(step, js, after, rest, |free|, 0);
  }

  lemma CommandsReplayed(b: Block, rb: Block, fmt: Format, step: ImportStep, js: seq<Json>)
    requires SamePlaces(b, rb) && rb == Reread(b) && Imports(step) && js == ExportCommands(b)
    ensures Leads(Replay(step, StateBefore(rb, fmt, 0), js, 0), AllGood(FreeGoods(b), 0) && AllGood(StepGoods(b), 0),
                  StateAt(rb, fmt, |b.commands|))
  {
    var before, after := StatesBefore(rb, fmt), StatesAt(rb, fmt);
    WithdrawalsTaken(b, rb, fmt, step, js, before, FreeGoods(b));
    CommandsTaken(b, rb, fmt, step, js, |FreeSeq(b)|, after, StepGoods(b));
    StatesMeet(rb, fmt);
    StretchesJoin(step, js, before, FreeGoods(b), after, StepGoods(b));
  }

  /** The document shows the type of every withdrawal once, and the tags of every kept command. */
  lemma ReadableSteps(b: Block)
    ensures Readable(b) <==> AllGood(FreeGoods(b), 0) && AllGood(StepGoods(b), 0)
  {
    var free, steps := FreeGoods(b), StepGoods(b);
    if Readable(b) {
      forall t | 0 <= t < |free| ensures free[t] { assert FreeSeq(b)[t] in Free(b); }
    }
    if AllGood(free, 0) && AllGood(steps, 0) {
      forall i | 0 <= i < |b.inputs| && b.inputs[i].FundsWithdrawal? ensures Returns(b.inputs[i].funds.typ) {
        if i in Redeemed(b) {
          var c := RedeemingCommand(b, 0, i);
          assert steps[c];
        } else {
          assert i in FreeSeq(b);
          var t :| 0 <= t < |FreeSeq(b)| && FreeSeq(b)[t] == i;
          assert free[t];
        }
      }
      forall c | 0 <= c < |b.commands| && !IsRedeem(b, c) ensures TagsReturn(b.commands[c]) {
        assert steps[c];
      }
    }
  }

  lemma InputsReplay(b: Block, rb: Block, fmt: Format)
    requires SamePlaces(b, rb) && rb == Reread(b)
    ensures ListOf(Arr(ExportInputs(b, fmt)), JsonToCallArg) == Ok(PlainBack(rb, fmt))
  {
    forall t | 0 <= t < |PlainSeq(b)|
      ensures JsonToCallArg(ExportInputs(b, fmt)[t]) == Ok(PlainBack(rb, fmt)[t])
    {
      assert PlainSeq(b)[t] in Plain(b);
      CallArgRoundTrip(b.inputs[PlainSeq(b)[t]], fmt);
    }
    assert ListOf(Arr(ExportInputs(b, fmt)), JsonToCallArg).value == PlainBack(rb, fmt);
  }

  /** What the import of an exported block is: it fails exactly if the document shows a type tag that is
      not read. */
  lemma ImportOfExport(b: Block, rb: Block, fmt: Format)
    requires Export(b, fmt).Ok? && rb == Reread(b)
    ensures SamePlaces(b, rb)
    ensures var r := Import(Export(b, fmt).value.0, Export(b, fmt).value.1);
      && (r.Ok? <==> Readable(b))
      && (r.Ok? ==> r.value == Block(Layout(rb, fmt), CommandsBack(rb, |b.commands|)))
  {
    RereadAlike(b);
    AlikePlaces(b, rb);
    InputsReplay(b, rb, fmt);
    var start := ImportState(Block(PlainBack(rb, fmt), []), map[]);
    assert start.block == StateBefore(rb, fmt, 0).block;
    assert start.rm == StateBefore(rb, fmt, 0).rm;
    CommandsReplayed(b, rb, fmt, ImportCommand, ExportCommands(b));
    ReadableSteps(b);
  }

  // ---- meaning -------------------------------------------------------------

  /** A deferred object compares without the reference kind, which JSON does not carry. */
  function DropRefType(ca: CallArg): CallArg {
    if ca.UnresolvedObject? then UnresolvedObject(ca.unres.(refType := 0)) else ca
  }

  /** The denotation of an argument, up to the reference kind of deferred objects. */
  function Sense(inputs: seq<CallArg>, a: Argument): Meaning {
    match Denote(inputs, a)
    case TheInput(v) => TheInput(DropRefType(v))
    case m => m
  }

  function SenseCommand(inputs: seq<CallArg>, c: Command<Argument>): Command<Meaning> {
    c.Map(a => Sense(inputs, a))
  }

  /** Input `j` comes back as the withdrawal that input `i` was: the same amount, and the type and the
      source that `j` comes back with. */
  predicate SameWithdrawal(b: Block, i: nat, j: nat)
    requires i < |b.inputs| && b.inputs[i].FundsWithdrawal?
  {
    && j < |b.inputs| && b.inputs[j].FundsWithdrawal?
    && b.inputs[j].funds.amount == b.inputs[i].funds.amount
    && b.inputs[i].funds.typ == Back(b.inputs[j].funds.typ)
    && b.inputs[i].funds.source == if j in Redeemed(b) then Sender else b.inputs[j].funds.source
  }

  predicate TagsSurvive<A>(c: Command<A>) {
    forall t :: t in TagsOf(c) ==> Survives(t)
  }

  /** What the `c`-th command must satisfy of its argument `a` for the trip to keep its meaning. */
  predicate ArgumentKept(b: Block, fmt: Format, c: nat, a: Argument) {
    match a
    case GasCoin => true
    case Input(i) =>
      if i in Plain(b) && b.inputs[i].UnresolvedObject? then
        var u := b.inputs[i].unres;
        fmt.Standard? ==> !u.isOptional && !u.isReceiving && u.typeStr == ""
      else if i in Free(b) then Survives(b.inputs[i].funds.typ)
      else if i in Redeemed(b) then i < |Order(b)| && SameWithdrawal(b, i, Order(b)[i])
      else true
    case Result(r) => r < c || Free(b) == {}
    case NestedResult(r, _) => r < c || Free(b) == {}
  }

  /** The exact condition on the `c`-th command: its type tags survive being written and read; a redeeming
      call has the withdrawal as its only argument, its type as the only type argument, and draws on the
      sender; any other command looks only backwards and does not mention a redeemed withdrawal, unless
      the input that takes its index in the new order comes back as the same withdrawal. */
  predicate CommandKept(b: Block, fmt: Format, c: nat)
    requires c < |b.commands|
  {
    if IsRedeem(b, c) then
      && |b.commands[c].args| == 1
      && b.commands[c].typeArgs == [b.inputs[Candidate(b, c).value].funds.typ]
      && Survives(b.inputs[Candidate(b, c).value].funds.typ)
      && b.inputs[Candidate(b, c).value].funds.source == Sender
    else
      && TagsSurvive(b.commands[c])
      && forall a :: a in b.commands[c].Args() ==> ArgumentKept(b, fmt, c, a)
  }

  lemma ArgBackForm(b: Block, c: nat, a: Argument)
    ensures match a
      case GasCoin => ArgBack(b, c, a) == GasCoin
      case Input(i) =>
        ArgBack(b, c, a) == (if i in Free(b) then Input(|PlainSeq(b)| + Rank(i, Free(b)))
                             else if i in Plain(b) then Input(Rank(i, Plain(b))) else a)
      case Result(r) => ArgBack(b, c, a) == Argument.Result(if r < c then r else r + |FreeSeq(b)|)
      case NestedResult(r, s) => ArgBack(b, c, a) == NestedResult(if r < c then r else r + |FreeSeq(b)|, s)
  {
    if a.Input? && a.index in Free(b) { RankPosition(|b.inputs|, a.index, Free(b)); }
  }

  lemma LayoutFinds(b: Block, fmt: Format, i: nat)
    ensures |Layout(b, fmt)| == |b.inputs|
    ensures i in Plain(b) ==> Rank(i, Plain(b)) < |Layout(b, fmt)|
    ensures i in Plain(b) ==> Layout(b, fmt)[Rank(i, Plain(b))] == AfterJson(b.inputs[i], fmt)
    ensures i in Free(b) ==> |PlainSeq(b)| + Rank(i, Free(b)) < |Layout(b, fmt)|
    ensures i in Free(b) ==> Layout(b, fmt)[|PlainSeq(b)| + Rank(i, Free(b))] == b.inputs[i]
  {
    LayoutIsPermuted(b, fmt);
    if i in Plain(b) { RankPosition(|b.inputs|, i, Plain(b)); }
    if i in Free(b) { RankPosition(|b.inputs|, i, Free(b)); }
  }

  lemma FreeCount(b: Block)
    ensures Free(b) == {} <==> |FreeSeq(b)| == 0
  {
    if Free(b) != {} { var i :| i in Free(b); assert i in FreeSeq(b); }
    if |FreeSeq(b)| > 0 { assert FreeSeq(b)[0] in Free(b); }
  }

  lemma {:induction false} RedeemSeqAlike(b: Block, rb: Block, c: nat)
    requires SamePlaces(b, rb) && c <= |b.commands|
    ensures RedeemSeq(rb, c) == RedeemSeq(b, c)
  {
    if c > 0 {
      assert SameRedeem(b, rb, c - 1);
      RedeemSeqAlike(b, rb, c - 1);
    }
  }

  lemma StaysInPlace(b: Block, rb: Block, fmt: Format, i: nat, layout: seq<CallArg>)
    requires SamePlaces(b, rb) && rb == Reread(b) && i in Redeemed(b) && layout == Layout(rb, fmt)
    ensures i < |layout| == |Order(b)|
    ensures layout[i] == b.inputs[i] <==> SameWithdrawal(b, i, Order(b)[i])
  {
    RedeemSeqAlike(b, rb, |b.commands|);
    LayoutIsPermuted(rb, fmt);
    var j := Order(b)[i];
    assert layout[i] == ComeBack(rb, fmt, j);
  }

  lemma FreeMeaning(w: Withdrawal)
    requires Returns(w.typ)
    ensures FundsWithdrawal(Returned(w)) == FundsWithdrawal(w) <==> Survives(w.typ)
  {
  }

  lemma PlainMeaning(ca: CallArg, fmt: Format)
    requires !ca.FundsWithdrawal?
    ensures DropRefType(AfterJson(ca, fmt)) == DropRefType(ca) <==>
      (ca.UnresolvedObject? && fmt.Standard? ==>
         !ca.unres.isOptional && !ca.unres.isReceiving && ca.unres.typeStr == "")
  {
  }

  /** An input that is not redeemed is found where its index points after the trip. */
  lemma InputFound(rb: Block, fmt: Format, i: nat, layout: seq<CallArg>, back: Argument)
    requires i < |rb.inputs| && i !in Redeemed(rb) && layout == Layout(rb, fmt)
    requires back == if i in Free(rb) then Input(|PlainSeq(rb)| + Rank(i, Free(rb))) else Input(Rank(i, Plain(rb)))
    ensures Denote(layout, back)
         == TheInput(if i in Free(rb) then rb.inputs[i] else AfterJson(rb.inputs[i], fmt))
  {
    LayoutFinds(rb, fmt, i);
  }

  lemma SenseOf(layout: seq<CallArg>, inputs: seq<CallArg>, back: Argument, i: nat, x: CallArg)
    requires Denote(layout, back) == TheInput(x) && i < |inputs|
    ensures Sense(layout, back) == Sense(inputs, Input(i)) <==> DropRefType(x) == DropRefType(inputs[i])
  {
  }

  lemma FreeKept(b: Block, rb: Block, fmt: Format, c: nat, i: nat, layout: seq<CallArg>, back: Argument)
    requires SamePlaces(b, rb) && rb == Reread(b) && i in Free(b) && Returns(b.inputs[i].funds.typ)
    requires layout == Layout(rb, fmt) && back == Input(|PlainSeq(rb)| + Rank(i, Free(rb)))
    ensures Sense(layout, back) == Sense(b.inputs, Input(i)) <==> ArgumentKept(b, fmt, c, Input(i))
  {
    var w := b.inputs[i].funds;
    InputFound(rb, fmt, i, layout, back);
    SenseOf(layout, b.inputs, back, i, FundsWithdrawal(Returned(w)));
    FreeMeaning(w);
    assert ArgumentKept(b, fmt, c, Input(i)) <==> Survives(w.typ);
  }

  lemma PlainKept(b: Block, rb: Block, fmt: Format, c: nat, i: nat, layout: seq<CallArg>, back: Argument)
    requires SamePlaces(b, rb) && rb == Reread(b) && i in Plain(b) && i !in Redeemed(b)
    requires layout == Layout(rb, fmt) && back == Input(Rank(i, Plain(rb)))
    ensures Sense(layout, back) == Sense(b.inputs, Input(i)) <==> ArgumentKept(b, fmt, c, Input(i))
  {
    InputFound(rb, fmt, i, layout, back);
    SenseOf(layout, b.inputs, back, i, AfterJson(b.inputs[i], fmt));
    PlainMeaning(b.inputs[i], fmt);
  }

  lemma RedeemedKept(b: Block, rb: Block, fmt: Format, c: nat, i: nat, layout: seq<CallArg>)
    requires SamePlaces(b, rb) && rb == Reread(b) && i in Redeemed(b) && layout == Layout(rb, fmt)
    ensures Sense(layout, Input(i)) == Sense(b.inputs, Input(i)) <==> ArgumentKept(b, fmt, c, Input(i))
  {
    StaysInPlace(b, rb, fmt, i, layout);
    SenseOf(layout, b.inputs, Input(i), i, layout[i]);
  }

  lemma InputMeaning(b: Block, rb: Block, fmt: Format, c: nat, i: nat, layout: seq<CallArg>, back: Argument)
    requires SamePlaces(b, rb) && rb == Reread(b) && Readable(b)
    requires layout == Layout(rb, fmt) && back == ArgBack(rb, c, Input(i))
    ensures Sense(layout, back) == Sense(b.inputs, Input(i)) <==> ArgumentKept(b, fmt, c, Input(i))
  {
    ArgBackForm(rb, c, Input(i));
    if i in Redeemed(b) {
      RedeemedKept(b, rb, fmt, c, i, layout);
    } else if i in Free(b) {
      FreeKept(b, rb, fmt, c, i, layout, back);
    } else if i in Plain(b) {
      PlainKept(b, rb, fmt, c, i, layout, back);
    } else {
      LayoutFinds(rb, fmt, i);
    }
  }

  lemma ArgumentMeaning(b: Block, rb: Block, fmt: Format, c: nat, a: Argument)
    requires SamePlaces(b, rb) && rb == Reread(b) && Readable(b)
    ensures Sense(Layout(rb, fmt), ArgBack(rb, c, a)) == Sense(b.inputs, a) <==> ArgumentKept(b, fmt, c, a)
  {
    if a.Input? {
      InputMeaning(b, rb, fmt, c, a.index, Layout(rb, fmt), ArgBack(rb, c, a));
    } else {
      ArgBackForm(rb, c, a);
      FreeCount(rb);
    }
  }

  lemma {:induction false} RedeemBackPrefix(b: Block, c: nat, n: nat)
    requires c <= n <= |b.commands|
    ensures RedeemBack(b, c) <= RedeemBack(b, n)
    decreases n - c
  {
    if c < n { RedeemBackPrefix(b, c, n - 1); }
  }

  lemma PlaceInThird(p: seq<CallArg>, f: seq<CallArg>, r: seq<CallArg>, at: nat)
    requires at < |r|
    ensures (p + f + r)[|p| + |f| + at] == r[at]
  {
  }

  lemma RedeemedPlace(b: Block, fmt: Format, c: nat)
    requires IsRedeem(b, c)
    ensures |PlainSeq(b)| + |FreeSeq(b)| + |RedeemSeq(b, c)| < |Layout(b, fmt)|
    ensures Layout(b, fmt)[|PlainSeq(b)| + |FreeSeq(b)| + |RedeemSeq(b, c)|]
         == FundsWithdrawal(b.inputs[Candidate(b, c).value].funds.(source := Sender))
  {
    var all, at := RedeemBack(b, |b.commands|), |RedeemSeq(b, c)|;
    RedeemBackAt(b, c, all, at, FundsWithdrawal(b.inputs[Candidate(b, c).value].funds.(source := Sender)));
    PlaceInThird(PlainBack(b, fmt), FreeBack(b, |FreeSeq(b)|), all, at);
  }

  lemma RedeemBackLast(b: Block, c: nat, at: nat, sent: CallArg, here: seq<CallArg>)
    requires IsRedeem(b, c) && at == |RedeemSeq(b, c)| && here == RedeemBack(b, c + 1)
    requires sent == FundsWithdrawal(b.inputs[Candidate(b, c).value].funds.(source := Sender))
    ensures |here| == at + 1 && here[at] == sent
  {
  }

  lemma RedeemBackAt(b: Block, c: nat, all: seq<CallArg>, at: nat, sent: CallArg)
    requires IsRedeem(b, c) && all == RedeemBack(b, |b.commands|) && at == |RedeemSeq(b, c)|
    requires sent == FundsWithdrawal(b.inputs[Candidate(b, c).value].funds.(source := Sender))
    ensures at < |all| && all[at] == sent
  {
    var here := RedeemBack(b, c + 1);
    RedeemBackLast(b, c, at, sent, here);
    assert here <= all by { RedeemBackPrefix(b, c + 1, |b.commands|); }
  }

  lemma CallSense(layout: seq<CallArg>, k: OutputKind, typ: TypeTag, at: nat, sent: Withdrawal)
    requires at < |layout| && layout[at] == FundsWithdrawal(sent)
    ensures SenseCommand(layout, RedeemCall(KindName(k), typ, at))
         == MoveCall(FRAMEWORK, KindName(k), "redeem_funds", [typ], [TheInput(FundsWithdrawal(sent))])
  {
  }

  lemma RedeemThere(rb: Block, fmt: Format, c: nat, rw: Withdrawal, k: OutputKind, layout: seq<CallArg>)
    requires IsRedeem(rb, c) && rb.inputs[Candidate(rb, c).value] == FundsWithdrawal(rw)
    requires RedeemKind(rb.commands[c]) == Some(k) && layout == Layout(rb, fmt)
    ensures SenseCommand(layout, CommandBack(rb, c))
         == MoveCall(FRAMEWORK, KindName(k), "redeem_funds", [rw.typ],
                     [TheInput(FundsWithdrawal(rw.(source := Sender)))])
  {
    var at := |PlainSeq(rb)| + |FreeSeq(rb)| + |RedeemSeq(rb, c)|;
    RedeemedPlace(rb, fmt, c);
    RedeemForms(rb, c, rw, k, at, RedeemCall(KindName(k), rw.typ, at));
    CallSense(layout, k, rw.typ, at, rw.(source := Sender));
  }

  lemma RedeemHere(b: Block, c: nat, w: Withdrawal, k: OutputKind, cmd: Command<Argument>)
    requires IsRedeem(b, c) && b.inputs[Candidate(b, c).value] == FundsWithdrawal(w)
    requires cmd == b.commands[c] && RedeemKind(cmd) == Some(k)
    ensures var here := SenseCommand(b.inputs, cmd);
      && here == MoveCall(FRAMEWORK, KindName(k), "redeem_funds", cmd.typeArgs, here.args)
      && |here.args| == |cmd.args|
      && (|cmd.args| == 1 ==> here.args == [TheInput(FundsWithdrawal(w))])
  {
    var i := Candidate(b, c).value;
    assert Input(i) in cmd.args;
    if |cmd.args| == 1 { assert cmd.args[0] == Input(i); }
  }

  lemma RedeemMeaning(b: Block, rb: Block, fmt: Format, c: nat)
    requires SamePlaces(b, rb) && rb == Reread(b) && Readable(b) && IsRedeem(b, c)
    ensures SenseCommand(Layout(rb, fmt), CommandBack(rb, c)) == SenseCommand(b.inputs, b.commands[c])
        <==> CommandKept(b, fmt, c)
  {
    var w, k := b.inputs[Candidate(b, c).value].funds, RedeemKind(b.commands[c]).value;
    assert SameRedeem(b, rb, c);
    RedeemThere(rb, fmt, c, Returned(w), k, Layout(rb, fmt));
    RedeemHere(b, c, w, k, b.commands[c]);
  }

  /** A command renamed and with its tags read back agrees with it exactly if the tags survive and the
      renamings agree on its arguments. */
  lemma RetagAgree(c: Command<Argument>, f: Argument -> Meaning, g: Argument -> Meaning)
    requires TagsReturn(c)
    ensures Retag(c).Map(f) == c.Map(g) <==> TagsSurvive(c) && forall x :: x in c.Args() ==> f(x) == g(x)
  {
    var ts, back := TagsOf(c), TagsOf(Retag(c));
    assert |back| == |ts| && forall i :: 0 <= i < |ts| ==> back[i] == Back(ts[i]);
    assert TagsOf(Retag(c).Map(f)) == back && TagsOf(c.Map(g)) == ts;
    if back == ts {
      forall t | t in ts ensures Survives(t) { var i :| 0 <= i < |ts| && ts[i] == t; }
      TagsKept(c);
      MapAgree(c, f, g);
    } else {
      var i :| 0 <= i < |ts| && back[i] != ts[i];
      assert ts[i] in ts;
    }
  }

  lemma TagsKept<A>(c: Command<A>)
    requires TagsSurvive(c)
    ensures Retag(c) == c
  {
    if c.MoveCall? {
      forall i | 0 <= i < |c.typeArgs| ensures Back(c.typeArgs[i]) == c.typeArgs[i] {
        assert c.typeArgs[i] in TagsOf(c);
      }
      assert MapSeq(c.typeArgs, (t: TypeTag) => Back(t)) == c.typeArgs;
    }
    if c.MakeMoveVec? && c.elemType.Some? { assert c.elemType.value in TagsOf(c); }
  }

  lemma KeptMeaning(b: Block, rb: Block, fmt: Format, c: nat, cmd: Command<Argument>, layout: seq<CallArg>,
                    back: Argument -> Argument)
    requires SamePlaces(b, rb) && rb == Reread(b) && Readable(b)
    requires c < |b.commands| && !IsRedeem(b, c) && cmd == b.commands[c] && layout == Layout(rb, fmt)
    requires forall a :: back(a) == ArgBack(rb, c, a)
    ensures SenseCommand(layout, Retag(cmd).Map(back)) == SenseCommand(b.inputs, cmd)
        <==> TagsSurvive(cmd) && forall a :: a in cmd.Args() ==> ArgumentKept(b, fmt, c, a)
  {
    var after, before := a => Sense(layout, back(a)), a => Sense(b.inputs, a);
    MapCompose(Retag(cmd), back, a => Sense(layout, a), after);
    RetagAgree(cmd, after, before);
    forall a ensures after(a) == before(a) <==> ArgumentKept(b, fmt, c, a) {
      ArgumentMeaning(b, rb, fmt, c, a);
    }
    assert SenseCommand(layout, Retag(cmd).Map(back)) == Retag(cmd).Map(after);
    assert SenseCommand(b.inputs, cmd) == cmd.Map(before);
  }

  lemma CommandMeaning(b: Block, rb: Block, fmt: Format, c: nat)
    requires SamePlaces(b, rb) && rb == Reread(b) && Readable(b) && c < |b.commands|
    ensures SenseCommand(Layout(rb, fmt), CommandBack(rb, c)) == SenseCommand(b.inputs, b.commands[c])
        <==> CommandKept(b, fmt, c)
  {
    if IsRedeem(b, c) {
      RedeemMeaning(b, rb, fmt, c);
    } else {
      var back := a => ArgBack(rb, c, a);
      assert SameRedeem(b, rb, c);
      KeptMeaning(b, rb, fmt, c, b.commands[c], Layout(rb, fmt), back);
      MapAgree(rb.commands[c], back, a => ArgBack(rb, c, a));
    }
  }

  lemma {:induction false} CommandsBackAt(b: Block, n: nat, c: nat)
    requires c < n <= |b.commands|
    ensures CommandsBack(b, n)[c] == CommandBack(b, c)
  {
    if c < n - 1 { CommandsBackAt(b, n - 1, c); }
  }

  /** The round trip: an exported block imports exactly if every type tag that it shows is read; and then
      it has as many commands, and each means what it meant exactly when the condition above holds of it. */
  lemma RoundTrip(b: Block, fmt: Format, r: Base.Result<Block>)
    requires Export(b, fmt).Ok? && r == Import(Export(b, fmt).value.0, Export(b, fmt).value.1)
    ensures r.Ok? <==> Readable(b)
    ensures r.Ok? ==> |r.value.commands| == |b.commands| && |r.value.inputs| == |b.inputs|
    ensures r.Ok? ==> forall c :: 0 <= c < |b.commands| ==>
      (SenseCommand(r.value.inputs, r.value.commands[c]) == SenseCommand(b.inputs, b.commands[c])
       <==> CommandKept(b, fmt, c))
  {
    var rb := Reread(b);
    ImportOfExport(b, rb, fmt);
    LayoutIsPermuted(rb, fmt);
    if r.Ok? {
      forall c | 0 <= c < |b.commands|
        ensures SenseCommand(r.value.inputs, r.value.commands[c]) == SenseCommand(b.inputs, b.commands[c])
            <==> CommandKept(b, fmt, c)
      {
        CommandsBackAt(rb, |b.commands|, c);
        CommandMeaning(b, rb, fmt, c);
      }
    }
  }

  // ---- a condition that is enough ------------------------------------------

  /** References look backwards, and a redeemed withdrawal is drawn on the sender and belongs to its one
      redeeming call. `WithdrawalRuns` says which runs of the builder give such blocks. */
  predicate Exportable(b: Block) {
    && WellFormed(b)
    && forall c :: 0 <= c < |b.commands| && Candidate(b, c).Some? ==>
         var i := Candidate(b, c).value;
         && b.commands[c].args == [Input(i)]
         && b.commands[c].typeArgs == [b.inputs[i].funds.typ]
         && b.inputs[i].funds.source == Sender
         && forall d :: 0 <= d < |b.commands| && d != c ==> Input(i) !in b.commands[d].Args()
  }

  /** Every type tag that the document shows survives. */
  predicate TagsLast(b: Block) {
    && (forall i :: 0 <= i < |b.inputs| && b.inputs[i].FundsWithdrawal? ==> Survives(b.inputs[i].funds.typ))
    && (forall c :: 0 <= c < |b.commands| && !IsRedeem(b, c) ==> TagsSurvive(b.commands[c]))
  }

  lemma LastingIsReadable(b: Block)
    requires TagsLast(b)
    ensures Printable(b) && Readable(b)
  {
  }

  lemma ExportableElsewhere(b: Block, c: nat, i: nat)
    requires Exportable(b) && c < |b.commands| && !IsRedeem(b, c) && Input(i) in b.commands[c].Args()
    ensures i !in Redeemed(b)
  {
    if i in Redeemed(b) {
      var d := RedeemingCommand(b, 0, i);
    }
  }

  /** In the extended format every exportable block whose tags survive keeps its meaning. */
  lemma ExportableKeepsMeaning(b: Block, c: nat)
    requires Exportable(b) && TagsLast(b) && c < |b.commands|
    ensures CommandKept(b, Extended, c)
  {
    if !IsRedeem(b, c) {
      forall a | a in b.commands[c].Args() ensures ArgumentKept(b, Extended, c, a) {
        assert CommandInScope(b.commands[c], |b.inputs|, c);
        if a.Input? { ExportableElsewhere(b, c, a.index); }
      }
    }
  }

  /** In the extended format an exportable block whose tags survive comes back with the same commands in
      the same order, each meaning what it meant. */
  lemma ExportThenImport(b: Block) returns (back: Block)
    requires Exportable(b) && TagsLast(b)
    ensures Export(b, Extended).Ok?
    ensures Import(Export(b, Extended).value.0, Export(b, Extended).value.1) == Ok(back)
    ensures |back.commands| == |b.commands| && |back.inputs| == |b.inputs|
    ensures forall c :: 0 <= c < |b.commands| ==>
      SenseCommand(back.inputs, back.commands[c]) == SenseCommand(b.inputs, b.commands[c])
  {
    LastingIsReadable(b);
    var r := Import(Export(b, Extended).value.0, Export(b, Extended).value.1);
    RoundTrip(b, Extended, r);
    back := r.value;
    forall c | 0 <= c < |b.commands| ensures CommandKept(b, Extended, c) { ExportableKeepsMeaning(b, c); }
  }

  /** The exported form is itself well formed: no dangling input, and results point backwards. */
  lemma ExportedInScope(b: Block, c: nat, a: Argument)
    requires Exportable(b) && c < |b.commands| && !IsRedeem(b, c) && a in b.commands[c].Args()
    ensures ArgumentInScope(ArgOut(b, a), |PlainSeq(b)|, |FreeSeq(b)| + c)
  {
    assert CommandInScope(b.commands[c], |b.inputs|, c);
    if a.Input? {
      ExportableElsewhere(b, c, a.index);
      if a.index in Free(b) { RankPosition(|b.inputs|, a.index, Free(b)); }
      else { RankPosition(|b.inputs|, a.index, Plain(b)); }
    }
  }

  /** A redeemed withdrawal from the sponsor does not survive: the intent has no source. */
  lemma SponsorIsLost(b: Block, fmt: Format)
    requires b == Block([FundsWithdrawal(Withdrawal(1, StructTags.U8, Sponsor))],
                        [MoveCall(FRAMEWORK, "coin", "redeem_funds", [StructTags.U8], [Input(0)])])
    ensures Export(b, fmt).Ok? && !CommandKept(b, fmt, 0)
  {
    assert FirstWithdrawal(b.inputs, b.commands[0].args) == Some(0);
    assert Candidate(b, 0) == Some(0);
    assert RedeemedFrom(b, 1) == {};
    CandidateIsRedeemed(b, 0, 0);
    assert Free(b) == {};
  }

  /** One call without arguments is exportable, if its one type argument has a text. */
  lemma OneCallExports(b: Block, fmt: Format, cmd: Command<Argument>, t: TypeTag)
    requires b == Block([], [cmd]) && cmd.MoveCall? && cmd.args == [] && cmd.typeArgs == [t] && TagText(t).Ok?
    ensures !IsRedeem(b, 0) && Exportable(b) && Export(b, fmt).Ok?
    ensures Readable(b) <==> Returns(t)
    ensures CommandKept(b, fmt, 0) ==> Survives(t)
  {
    assert FirstWithdrawal([], []) == None && Candidate(b, 0) == None;
    assert Free(b) == {} && TagsOf(cmd) == [t] && t in TagsOf(cmd);
  }

  lemma RetagCall(cmd: Command<Argument>, t: TypeTag, elem: TypeTag)
    requires cmd.MoveCall? && cmd.typeArgs == [t] && Back(t) == elem
    ensures Retag(cmd) == MoveCall(cmd.package, cmd.modul, cmd.function_, [elem], cmd.args)
  {
    assert MapSeq([t], (t: TypeTag) => Back(t)) == [elem];
  }

  /** A call with a vector for its type argument: if the elements are of a basic type it comes back with
      that type instead, and otherwise it exports and does not import. */
  lemma VectorTagIsLost(p: Address, m: string, f: string, elem: TypeTag, fmt: Format, b: Block, cmd: Command<Argument>)
    requires cmd == MoveCall(p, m, f, [StructTags.Vector(elem)], []) && b == Block([], [cmd])
    ensures Exportable(b) && Export(b, fmt).Ok? && !CommandKept(b, fmt, 0)
    ensures var r := Import(Export(b, fmt).value.0, Export(b, fmt).value.1);
      && (r.Ok? <==> TypeTagLaws.Basic(elem))
      && (r.Ok? ==> r.value == Block([], [MoveCall(p, m, f, [elem], [])]))
  {
    var t := StructTags.Vector(elem);
    TypeTagLaws.VectorComesBackAs(elem);
    OneCallExports(b, fmt, cmd, t);
    ImportOfExport(b, Reread(b), fmt);
    if Returns(t) {
      RetagCall(cmd, t, elem);
      OneComesBack(b, Reread(b), fmt, MoveCall(p, m, f, [elem], []));
    }
  }

  lemma OneComesBack(b: Block, rb: Block, fmt: Format, back: Command<Argument>)
    requires SamePlaces(b, rb) && rb == Reread(b) && b.inputs == [] && |b.commands| == 1 && !IsRedeem(b, 0)
    requires Retag(b.commands[0]) == back && back.MoveCall? && back.args == []
    ensures Layout(rb, fmt) == [] && CommandsBack(rb, 1) == [back]
  {
    assert SameRedeem(b, rb, 0);
    LayoutIsPermuted(rb, fmt);
    assert CommandBack(rb, 0) == back;
    assert CommandsBack(rb, 0) == [];
  }
}
