// What a block draws from the gas coin, and the theorem across builder, resolution and gas
// selection: the payment shares no object with the block and covers budget and draw.

module Payment {
  import opened Base
  import opened Ptb
  import opened BuilderSpec
  import opened BuilderLaws
  import opened Resolution
  import opened LittleEndian
  import opened Gas

  // ---- inspecting the commands ---------------------------------------------

  /** The amount an argument of a gas split stands for, when it is known: a pure input. */
  function AmountDraw(inputs: seq<CallArg>, a: Argument): nat {
    if a.Input? && a.index < |inputs| && inputs[a.index].Pure? then FromLe(inputs[a.index].data) else 0
  }

  function AmountsDraw(inputs: seq<CallArg>, amounts: seq<Argument>): nat {
    if amounts == [] then 0
    else AmountsDraw(inputs, amounts[..|amounts| - 1]) + AmountDraw(inputs, amounts[|amounts| - 1])
  }

  function CommandDraw(inputs: seq<CallArg>, c: Command<Argument>): nat {
    if c.SplitCoin? && c.fromCoin.GasCoin? then AmountsDraw(inputs, c.amounts) else 0
  }

  /** The sum of every pure amount split from the gas coin. */
  function GasDraw(inputs: seq<CallArg>, cs: seq<Command<Argument>>): nat {
    if cs == [] then 0 else GasDraw(inputs, cs[..|cs| - 1]) + CommandDraw(inputs, cs[|cs| - 1])
  }

  /** Some command other than an upgrade mentions the gas coin. */
  predicate MentionsGasCoin(cs: seq<Command<Argument>>) {
    exists k :: 0 <= k < |cs| && !cs[k].Upgrade? && GasCoin in cs[k].Args()
  }

  /** `_accumulate_split_coin_draw`. */
  method AccumulateSplitCoinDraw(c: Command<Argument>, inputs: seq<CallArg>) returns (uses: bool, draw: nat)
    requires c.SplitCoin?
    ensures uses <==> GasCoin in c.Args()
    ensures draw == CommandDraw(inputs, c)
  {
    assert c.Args() == [c.fromCoin] + c.amounts;
    if !c.fromCoin.GasCoin? { return GasCoin in c.amounts, 0; }
    uses, draw := true, 0;
    for i := 0 to |c.amounts|
      invariant draw == AmountsDraw(inputs, c.amounts[..i])
    {
      var a := c.amounts[i];
      assert c.amounts[..i + 1][..i] == c.amounts[..i];
      if a.Input? && a.index < |inputs| && inputs[a.index].Pure? {
        draw := draw + FromLe(inputs[a.index].data);
      }
    }
    assert c.amounts[..|c.amounts|] == c.amounts;
  }

  /** `_inspect_ptb_for_gas_coin`. */
  method InspectForGasCoin(b: Block) returns (uses: bool, draw: nat)
    ensures uses <==> MentionsGasCoin(b.commands)
    ensures draw == GasDraw(b.inputs, b.commands)
  {
    uses, draw := false, 0;
    for k := 0 to |b.commands|
      invariant uses <==> MentionsGasCoin(b.commands[..k])
      invariant draw == GasDraw(b.inputs, b.commands[..k])
    {
      var c, before := b.commands[k], b.commands[..k];
      assert b.commands[..k + 1] == before + [c];
      match c {
        case SplitCoin(_, _) =>
          var used, d := AccumulateSplitCoinDraw(c, b.inputs);
          uses, draw := uses || used, draw + d;
        case MergeCoins(to, coins) =>
          assert c.Args() == [to] + coins;
          uses := uses || to.GasCoin? || GasCoin in coins;
        case TransferObjects(objects, recipient) =>
          assert c.Args() == objects + [recipient];
          uses := uses || GasCoin in objects || recipient.GasCoin?;
        case MoveCall(_, _, _, _, args) => uses := uses || GasCoin in args;
        case MakeMoveVec(_, elements) => uses := uses || GasCoin in elements;
        case Publish(_, _) =>
        case Upgrade(_, _, _, _) =>
      }
    }
    assert b.commands[..|b.commands|] == b.commands;
  }

  /** An amount given as a u64 is recovered exactly from its input bytes. */
  lemma AmountRecovered(inputs: seq<CallArg>, i: nat, amount: nat)
    requires i < |inputs| && inputs[i] == Pure(ToLe(amount, 8)) && amount < Pow256(8)
    ensures AmountDraw(inputs, Input(i)) == amount
  {
    FromToLe(amount, 8);
  }

  // ---- the payment ---------------------------------------------------------

  lemma ResolutionKeysMatch(s: State, cache: Option<Cache>, client: Client)
    requires KeysMatch(s) && (cache.Some? ==> CacheOk(cache.value))
    requires ResolveDeferred(s, cache, client).result.Ok?
    ensures KeysMatch(ResolveDeferred(s, cache, client).state)
  {
    ResolutionLaws(s, cache, client);
    var t := ResolveDeferred(s, cache, client).state;
    forall i | 0 <= i < |t.inputs| ensures KeyMatches(t.inputs[i].key, t.inputs[i].arg) {
      assert KeyMatches(s.inputs[i].key, s.inputs[i].arg);
    }
  }

  /** The gas data of a resolved builder: the payer's coins are filtered by the registry. */
  function Pay(t: State, offered: seq<Coin>, budget: int, price: nat): Base.Result<GasData> {
    PayFrom(offered, budget, t.registry.Keys, price, GasDraw(CallArgs(t), t.commands))
  }

  /** A payment coin is an object of the block. */
  ghost predicate Shares(t: State, payment: seq<Coin>) {
    exists c, i :: c in payment && 0 <= i < |t.inputs| && IsInput(c, t.inputs[i].arg)
  }

  predicate IsInput(c: Coin, arg: CallArg) {
    arg.Object? && ParseAddress(c.id) == Some(arg.obj.Id())
  }

  predicate AllCanonical(coins: seq<Coin>) {
    forall c :: c in coins ==> Canonical(c.id)
  }

  /** No payment shares an object with the block, whatever coins and budget there are. */
  ghost predicate NeverShares(t: State) {
    forall offered: seq<Coin>, budget: int, price: nat |
        NoDup(offered) && AllCanonical(offered) && Pay(t, offered, budget, price).Ok? ::
      !Shares(t, Pay(t, offered, budget, price).value.payment)
  }

  /** The id is in the registry once the deferred inputs are resolved. */
  predicate Registers(s: State, id: string) {
    id in s.registry || exists i :: 0 <= i < |s.inputs| && s.inputs[i].key == KUnresolved(id)
  }

  /** `t` is `s` resolved. */
  ghost predicate IsResolved(s: State, t: State) {
    && |t.inputs| == |s.inputs| && KeysMatch(s) && KeysMatch(t)
    && (forall id :: id in t.registry <==> Registers(s, id))
    && forall i :: 0 <= i < |s.inputs| ==>
         if s.inputs[i].key.KUnresolved? then
           && t.inputs[i].arg.Object?
           && ParseAddress(s.inputs[i].key.name) == Some(t.inputs[i].arg.obj.Id())
         else t.inputs[i] == s.inputs[i]
  }

  lemma ResolvedBuilder(s: State, cache: Option<Cache>, client: Client)
    requires KeysMatch(s) && (cache.Some? ==> CacheOk(cache.value))
    requires ResolveDeferred(s, cache, client).result.Ok?
    ensures IsResolved(s, ResolveDeferred(s, cache, client).state)
  {
    var t := ResolveDeferred(s, cache, client).state;
    ResolutionKeysMatch(s, cache, client);
    ResolutionLaws(s, cache, client);
    forall id ensures id in t.registry <==> Registers(s, id) {
      NewRegistryKeys(s.inputs, t.inputs, s.registry, id);
    }
    forall i | 0 <= i < |s.inputs| && s.inputs[i].key.KUnresolved?
      ensures t.inputs[i].arg.Object? && ParseAddress(s.inputs[i].key.name) == Some(t.inputs[i].arg.obj.Id())
    {
      assert KeyMatches(s.inputs[i].key, s.inputs[i].arg);
    }
  }

  /** The object that the entry stands for is registered under its canonical id. */
  predicate ObjectRegistered(s: State, e: Entry) {
    match e.key
    case KObject(a) => Registers(s, PrintAddress(a))
    case KUnresolved(name) => ParseAddress(name).Some? ==> Registers(s, PrintAddress(ParseAddress(name).value))
    case _ => true
  }

  ghost predicate ObjectsRegistered(s: State) {
    forall i :: 0 <= i < |s.inputs| ==> ObjectRegistered(s, s.inputs[i])
  }

  /** Where the registry agrees with the inputs, that only asks how the deferred ids are spelled. */
  lemma RegisteredIsListed(s: State)
    requires RegistryAgrees(s)
    ensures ObjectsRegistered(s) <==> DeferredListed(s)
  {
    forall id ensures Registers(s, id) <==> HasObject(s, id) {
      if i :| 0 <= i < |s.inputs| && s.inputs[i].key == KUnresolved(id) { assert NamesObject(s.inputs[i].key, id); }
    }
    if DeferredListed(s) {
      forall i | 0 <= i < |s.inputs| ensures ObjectRegistered(s, s.inputs[i]) {
        var k := s.inputs[i].key;
        if k.KUnresolved? { assert Listed(s, k.name); }
        if k.KObject? { assert NamesObject(k, PrintAddress(k.id)); }
      }
    }
    if ObjectsRegistered(s) {
      forall i | 0 <= i < |s.inputs| && s.inputs[i].key.KUnresolved? ensures Listed(s, s.inputs[i].key.name) {
        assert ObjectRegistered(s, s.inputs[i]);
      }
    }
  }

  /** An object of the resolved block. */
  lemma ObjectIs(s: State, t: State, i: nat)
    requires IsResolved(s, t) && i < |t.inputs|
    ensures t.inputs[i].arg.Object? <==> s.inputs[i].key.KObject? || s.inputs[i].key.KUnresolved?
    ensures t.inputs[i].arg.Object? ==>
      (ObjectRegistered(s, s.inputs[i]) <==> PrintAddress(t.inputs[i].arg.obj.Id()) in t.registry)
  {
    assert KeyMatches(t.inputs[i].key, t.inputs[i].arg);
  }

  lemma PayCovers(t: State, offered: seq<Coin>, budget: int, price: nat)
    requires NoDup(offered) && Pay(t, offered, budget, price).Ok?
    ensures var payment := Pay(t, offered, budget, price).value.payment;
      && Total(payment) >= budget + GasDraw(CallArgs(t), t.commands)
      && forall c :: c in payment ==> c in offered && c.id !in t.registry
  {
    var draw := GasDraw(CallArgs(t), t.commands);
    var free := NotInUse(offered, t.registry.Keys);
    PaymentCovers(offered, budget, t.registry.Keys, price, draw, free, budget + draw, Pay(t, offered, budget, price));
  }

  lemma PaymentAvoidsInputs(s: State, t: State, offered: seq<Coin>, budget: int, price: nat)
    requires IsResolved(s, t) && ObjectsRegistered(s) && NoDup(offered) && AllCanonical(offered)
    requires Pay(t, offered, budget, price).Ok?
    ensures !Shares(t, Pay(t, offered, budget, price).value.payment)
  {
    PayCovers(t, offered, budget, price);
    forall c, i | c in Pay(t, offered, budget, price).value.payment && 0 <= i < |t.inputs|
      ensures !IsInput(c, t.inputs[i].arg)
    {
      ObjectIs(s, t, i);
    }
  }

  /** An object whose canonical id is not registered can be offered, and taken, as gas. */
  lemma UnlistedObjectPays(s: State, t: State, i: nat) returns (c: Coin)
    requires IsResolved(s, t) && i < |s.inputs| && !ObjectRegistered(s, s.inputs[i])
    ensures Canonical(c.id) && IsInput(c, t.inputs[i].arg)
    ensures Pay(t, [c], 0, 0).Ok? && Pay(t, [c], 0, 0).value.payment == [c]
  {
    ObjectIs(s, t, i);
    var a := t.inputs[i].arg.obj.Id();
    var draw := GasDraw(CallArgs(t), t.commands);
    c := Coin(PrintAddress(a), draw, 0, "");
    ParsePrintAddress(a);
    assert c.id !in t.registry.Keys;
    OneKept(c, t.registry.Keys);
    SingleCoin(c, draw);
  }

  /** No payment ever shares an object with the resolved block, exactly if each of its objects is
      registered under its canonical id. */
  lemma NeverSharesExactly(s: State, t: State)
    requires IsResolved(s, t)
    ensures NeverShares(t) <==> ObjectsRegistered(s)
  {
    if ObjectsRegistered(s) {
      forall offered: seq<Coin>, budget: int, price: nat |
          NoDup(offered) && AllCanonical(offered) && Pay(t, offered, budget, price).Ok?
        ensures !Shares(t, Pay(t, offered, budget, price).value.payment)
      {
        PaymentAvoidsInputs(s, t, offered, budget, price);
      }
    } else {
      var i :| 0 <= i < |s.inputs| && !ObjectRegistered(s, s.inputs[i]);
      UnlistedObjectShares(s, t, i);
    }
  }

  lemma UnlistedObjectShares(s: State, t: State, i: nat)
    requires IsResolved(s, t) && i < |s.inputs| && !ObjectRegistered(s, s.inputs[i])
    ensures !NeverShares(t)
  {
    var c := UnlistedObjectPays(s, t, i);
    var payment := Pay(t, [c], 0, 0).value.payment;
    assert c in payment && IsInput(c, t.inputs[i].arg);
    assert NoDup([c]) && AllCanonical([c]) && Shares(t, payment);
  }

  /** From an empty builder, through any run and a successful resolution: a payment covers the
      budget plus every pure amount split from the gas coin, and no payment ever shares an object with
      the block exactly if every deferred id is registered in its canonical form. */
  lemma BuiltTransactionIsPaidFor(compress: bool, turns: seq<Turn>, cache: Option<Cache>, client: Client)
    requires forall turn :: turn in turns ==> HonestTurn(turn)
    requires cache.Some? ==> CacheOk(cache.value)
    requires ResolveDeferred(Run(Init(compress), turns), cache, client).result.Ok?
    ensures var t := ResolveDeferred(Run(Init(compress), turns), cache, client).state;
      Covered(t) && (NeverShares(t) <==> DeferredListed(Run(Init(compress), turns)))
  {
    var s := Run(Init(compress), turns);
    assert RegistryAgrees(Init(compress));
    RunRegistry(Init(compress), turns);
    RunKeysMatch(Init(compress), turns);
    ResolvedBuilder(s, cache, client);
    var t := ResolveDeferred(s, cache, client).state;
    NeverSharesExactly(s, t);
    RegisteredIsListed(s);
    EveryPaymentCovers(t);
  }

  /** Every payment covers the budget plus every pure amount split from the gas coin. */
  ghost predicate Covered(t: State) {
    forall offered: seq<Coin>, budget: int, price: nat | NoDup(offered) && Pay(t, offered, budget, price).Ok? ::
      Total(Pay(t, offered, budget, price).value.payment) >= budget + GasDraw(CallArgs(t), t.commands)
  }

  lemma EveryPaymentCovers(t: State)
    ensures Covered(t)
  {
    forall offered: seq<Coin>, budget: int, price: nat | NoDup(offered) && Pay(t, offered, budget, price).Ok?
      ensures Total(Pay(t, offered, budget, price).value.payment) >= budget + GasDraw(CallArgs(t), t.commands)
    {
      PayCovers(t, offered, budget, price);
    }
  }

  // ---- an id that slips through --------------------------------------------

  /** The id 0xA written out with an upper-case digit. */
  function UpperCaseId(): string {
    "0x" + Zeros(63) + "A"
  }

  /** One call with an upper-case id, and a client that may answer in lower case: it resolves, the
      registry keeps the text it was given, and the same object passes the conflict filter and pays for
      the transaction. */
  lemma UpperCaseIdSlipsThrough(compress: bool, s: Summary, op: Op, client: Client)
    requires op == OpMakeMoveVec(None, [AUnresolved(Unresolved(UpperCaseId(), false, false, 0, ""))])
    requires Lower(s.id) == Lower(UpperCaseId()) && client([UpperCaseId()]) == Ok([s])
    ensures SuiId(UpperCaseId()) == UpperCaseId() && !Canonical(UpperCaseId())
    ensures var t := ResolveDeferred(Run(Init(compress), [Call(op)]), None, client);
      t.result.Ok? && !RegistryAgrees(t.state) && !NeverShares(t.state)
  {
    var id, before := UpperCaseId(), Run(Init(compress), [Call(op)]);
    UpperCaseParses();
    OneDeferredInput(compress, op, id);
    ResolvesOne(before, id, s, client);
    assert RegistryAgrees(Init(compress)) && HonestTurn(Call(op));
    RunRegistry(Init(compress), [Call(op)]);
    RunKeysMatch(Init(compress), [Call(op)]);
    OddSpellingSlipsThrough(before, id, client);
  }

  /** A lone deferred id that is not in canonical form. */
  lemma OddSpellingSlipsThrough(s: State, id: string, client: Client)
    requires KeysMatch(s) && RegistryAgrees(s) && |s.inputs| == 1 && s.inputs[0].key == KUnresolved(id)
    requires ParseAddress(id).Some? && !Canonical(id) && ResolveDeferred(s, None, client).result.Ok?
    ensures !RegistryAgrees(ResolveDeferred(s, None, client).state)
    ensures !NeverShares(ResolveDeferred(s, None, client).state)
  {
    OddSpellingUnlisted(s, id);
    RegisteredIsListed(s);
    assert !RegistryAgrees(ResolveDeferred(s, None, client).state) by { ResolutionRegistry(s, None, client); }
    assert !NeverShares(ResolveDeferred(s, None, client).state) by {
      ResolvedBuilder(s, None, client);
      NeverSharesExactly(s, ResolveDeferred(s, None, client).state);
    }
  }

  lemma OddSpellingUnlisted(s: State, id: string)
    requires KeysMatch(s) && |s.inputs| == 1 && s.inputs[0].key == KUnresolved(id)
    requires ParseAddress(id).Some? && !Canonical(id)
    ensures DeferredKeys(s) && !DeferredCanonical(s) && !DeferredListed(s)
  {
    assert KeyMatches(s.inputs[0].key, s.inputs[0].arg);
    ParsePrintAddress(ParseAddress(id).value);
    assert !Listed(s, id);
  }

  lemma UpperCaseParses()
    ensures SuiId(UpperCaseId()) == UpperCaseId() && ParseAddress(UpperCaseId()).Some? && !Canonical(UpperCaseId())
  {
    var h := Zeros(63) + "A";
    assert UpperCaseId() == "0x" + h && 'A' in h;
    assert forall c :: c in h ==> c == '0' || c == 'A';
    CanonicalText(h);
  }

  lemma OneDeferredInput(compress: bool, op: Op, id: string)
    requires id == UpperCaseId() && SuiId(id) == id
    requires op == OpMakeMoveVec(None, [AUnresolved(Unresolved(id, false, false, 0, ""))])
    ensures var s := Run(Init(compress), [Call(op)]);
      s.inputs == [Entry(KUnresolved(id), UnresolvedObject(Unresolved(id, false, false, 0, "")))]
  {
    var u := AUnresolved(Unresolved(id, false, false, 0, ""));
    var slots := Slots(op);
    assert slots == [Slot(VectorPlace, u)] && slots[1..] == [];
    var s := Init(compress);
    var first := Resolve(s, VectorPlace, u);
    assert first.state.inputs == [Entry(KUnresolved(id), UnresolvedObject(u.u))];
    assert ResolveAll(s, slots).state == first.state;
    assert [Call(op)][1..] == [];
  }

  lemma ResolvesOne(s: State, id: string, sm: Summary, client: Client)
    requires s.inputs == [Entry(KUnresolved(id), UnresolvedObject(Unresolved(id, false, false, 0, "")))]
    requires ParseAddress(id).Some? && Lower(sm.id) == Lower(id) && client([id]) == Ok([sm])
    ensures ResolveDeferred(s, None, client).result.Ok?
  {
    assert s.inputs[..0] == [];
    assert FetchIds(s.inputs, None) == [id];
    assert LastFetched([sm], id) == Some(sm);
  }
}
