// The exported document, field by field: it obeys the schema that the import checks, and shows every
// input, withdrawal and command of the block under the keys that the schema gives them.

module TxbSchema {
  import opened Base
  import opened Ptb
  import opened Json
  import opened TypeTags
  import opened TxbJson
  import opened TxbRoundTrip
  import TxbExport

  // ---- reading a document --------------------------------------------------

  /** An object with these keys and no others. */
  predicate Keyed(j: Json, keys: set<string>) {
    j.Obj? && j.fields.Keys == keys
  }

  function Part(j: Json, key: string): Json {
    if j.Obj? && key in j.fields then j.fields[key] else Null
  }

  /** A list that shows one element after the other. */
  predicate Lists<T>(j: Json, xs: seq<T>, shows: (Json, T) -> bool) {
    j.Arr? && |j.items| == |xs| && forall i :: 0 <= i < |xs| ==> shows(j.items[i], xs[i])
  }

  // ---- the schema ----------------------------------------------------------

  predicate SchemaRef(j: Json) {
    && Keyed(j, {"objectId", "version", "digest"})
    && Part(j, "objectId").Str? && Part(j, "version").Str? && Part(j, "digest").Str?
  }

  predicate SchemaShared(j: Json) {
    && Keyed(j, {"objectId", "initialSharedVersion", "mutable"})
    && Part(j, "objectId").Str? && Part(j, "initialSharedVersion").Str? && Part(j, "mutable").Bool?
  }

  predicate SchemaObject(j: Json) {
    || (Keyed(j, {"ImmOrOwnedObject"}) && SchemaRef(Part(j, "ImmOrOwnedObject")))
    || (Keyed(j, {"SharedObject"}) && SchemaShared(Part(j, "SharedObject")))
    || (Keyed(j, {"Receiving"}) && SchemaRef(Part(j, "Receiving")))
  }

  /** The flags and the type of a deferred object are there in the extended format only. */
  predicate SchemaDeferred(j: Json, fmt: Format) {
    && Part(j, "objectId").Str?
    && (fmt.Standard? ==> Keyed(j, {"objectId"}))
    && (fmt.Extended? ==>
        && Keyed(j, {"objectId", "isOptional", "isReceiving", "typeStr"})
        && Part(j, "isOptional").Bool? && Part(j, "isReceiving").Bool? && Part(j, "typeStr").Str?)
  }

  /** The inputs that an export emits; a withdrawal is none of them. */
  predicate SchemaInput(j: Json, fmt: Format) {
    || (Keyed(j, {"Pure"}) && Keyed(Part(j, "Pure"), {"bytes"}) && Part(Part(j, "Pure"), "bytes").B64?)
    || (Keyed(j, {"Object"}) && SchemaObject(Part(j, "Object")))
    || (Keyed(j, {"UnresolvedObject"}) && SchemaDeferred(Part(j, "UnresolvedObject"), fmt))
  }

  predicate SchemaData(name: Json, data: Json, fmt: Format) {
    || (&& name == Str("FundsWithdrawal") && fmt.Extended?
        && Keyed(data, {"amount", "type", "source"})
        && Part(data, "amount").Str? && Part(data, "type").Str?
        && (Part(data, "source") == Str("SENDER") || Part(data, "source") == Str("SPONSOR")))
    || (&& name == Str("CoinWithBalance")
        && Keyed(data, {"balance", "type", "outputKind"})
        && Part(data, "balance").Str? && Part(data, "type").Str?
        && (Part(data, "outputKind") == Str("coin") || Part(data, "outputKind") == Str("balance")))
  }

  predicate SchemaIntent(j: Json, fmt: Format) {
    && Keyed(j, {"$Intent"})
    && Keyed(Part(j, "$Intent"), {"name", "inputs", "data"})
    && Part(Part(j, "$Intent"), "inputs").Obj?
    && SchemaData(Part(Part(j, "$Intent"), "name"), Part(Part(j, "$Intent"), "data"), fmt)
  }

  /** The whole document. */
  predicate SchemaDocument(doc: (seq<Json>, seq<Json>), fmt: Format) {
    && (forall j :: j in doc.0 ==> SchemaInput(j, fmt))
    && (forall j :: j in doc.1 ==> SchemaCommand(j) || SchemaIntent(j, fmt))
  }

  // ---- what the document shows ---------------------------------------------

  predicate ShowsRef(j: Json, r: ObjectRef) {
    && Keyed(j, {"objectId", "version", "digest"})
    && Part(j, "objectId") == Str(PrintAddress(r.id))
    && Part(j, "version") == Str(Decimal(r.version))
    && Part(j, "digest") == Str(r.digest)
  }

  predicate ShowsShared(j: Json, id: Address, version: nat, mutable: bool) {
    && Keyed(j, {"objectId", "initialSharedVersion", "mutable"})
    && Part(j, "objectId") == Str(PrintAddress(id))
    && Part(j, "initialSharedVersion") == Str(Decimal(version))
    && Part(j, "mutable") == Bool(mutable)
  }

  predicate ShowsObject(j: Json, o: ObjectArg) {
    match o
    case ImmOrOwned(r) => Keyed(j, {"ImmOrOwnedObject"}) && ShowsRef(Part(j, "ImmOrOwnedObject"), r)
    case Shared(id, v, mutable) => Keyed(j, {"SharedObject"}) && ShowsShared(Part(j, "SharedObject"), id, v, mutable)
    case Receiving(r) => Keyed(j, {"Receiving"}) && ShowsRef(Part(j, "Receiving"), r)
  }

  predicate ShowsDeferred(j: Json, u: Unresolved, fmt: Format) {
    && Part(j, "objectId") == Str(u.id)
    && (fmt.Standard? ==> Keyed(j, {"objectId"}))
    && (fmt.Extended? ==>
        && Keyed(j, {"objectId", "isOptional", "isReceiving", "typeStr"})
        && Part(j, "isOptional") == Bool(u.isOptional)
        && Part(j, "isReceiving") == Bool(u.isReceiving)
        && Part(j, "typeStr") == Str(u.typeStr))
  }

  predicate ShowsInput(j: Json, ca: CallArg, fmt: Format) {
    match ca
    case Pure(data) =>
      Keyed(j, {"Pure"}) && Keyed(Part(j, "Pure"), {"bytes"}) && Part(Part(j, "Pure"), "bytes") == B64(data)
    case Object(o) => Keyed(j, {"Object"}) && ShowsObject(Part(j, "Object"), o)
    case UnresolvedObject(u) => Keyed(j, {"UnresolvedObject"}) && ShowsDeferred(Part(j, "UnresolvedObject"), u, fmt)
    case FundsWithdrawal(_) => false
  }

  predicate ShowsIntent(j: Json, name: string, keys: set<string>) {
    && Keyed(j, {"$Intent"})
    && Keyed(Part(j, "$Intent"), {"name", "inputs", "data"})
    && Part(Part(j, "$Intent"), "name") == Str(name)
    && Part(Part(j, "$Intent"), "inputs") == Obj(map[])
    && Keyed(Part(Part(j, "$Intent"), "data"), keys)
  }

  function Data(j: Json, key: string): Json {
    Part(Part(Part(j, "$Intent"), "data"), key)
  }

  predicate ShowsTag(j: Json, t: TypeTag) {
    j.Str? && TagText(t) == Ok(j.s)
  }

  /** A withdrawal that no call redeems. */
  predicate ShowsWithdrawal(j: Json, w: Withdrawal) {
    && ShowsIntent(j, "FundsWithdrawal", {"amount", "type", "source"})
    && Data(j, "amount") == Str(Decimal(w.amount))
    && ShowsTag(Data(j, "type"), w.typ)
    && Data(j, "source") == Str(match w.source case Sender => "SENDER" case Sponsor => "SPONSOR")
  }

  /** A withdrawal in the place of the call that redeems it as `kind`. */
  predicate ShowsRedeemed(j: Json, w: Withdrawal, kind: string) {
    && ShowsIntent(j, "CoinWithBalance", {"balance", "type", "outputKind"})
    && Data(j, "balance") == Str(Decimal(w.amount))
    && ShowsTag(Data(j, "type"), w.typ)
    && Data(j, "outputKind") == Str(kind)
  }

  function Addressed(): (Json, Address) -> bool {
    (j: Json, a: Address) => j == Str(PrintAddress(a))
  }

  function Coded(): (Json, bytes) -> bool {
    (j: Json, b: bytes) => j == B64(b)
  }

  function Tagged(): (Json, TypeTag) -> bool {
    (j: Json, t: TypeTag) => ShowsTag(j, t)
  }

  predicate ShowsCall(v: Json, c: Command<Argument>, shows: (Json, Argument) -> bool)
    requires c.MoveCall?
  {
    && Keyed(v, {"package", "module", "function", "typeArguments", "arguments"})
    && Part(v, "package") == Str(PrintAddress(c.package))
    && Part(v, "module") == Str(c.modul)
    && Part(v, "function") == Str(c.function_)
    && Lists(Part(v, "typeArguments"), c.typeArgs, Tagged())
    && Lists(Part(v, "arguments"), c.args, shows)
  }

  predicate ShowsUpgrade(v: Json, c: Command<Argument>, shows: (Json, Argument) -> bool)
    requires c.Upgrade?
  {
    && Keyed(v, {"modules", "dependencies", "package", "ticket"})
    && Lists(Part(v, "modules"), c.modules, Coded())
    && Lists(Part(v, "dependencies"), c.deps, Addressed())
    && Part(v, "package") == Str(PrintAddress(c.upgraded))
    && shows(Part(v, "ticket"), c.ticket)
  }

  /** A command that is not replaced: each field under its key. */
  predicate ShowsCommand(j: Json, c: Command<Argument>, shows: (Json, Argument) -> bool) {
    match c
    case MoveCall(_, _, _, _, _) => Keyed(j, {"MoveCall"}) && ShowsCall(Part(j, "MoveCall"), c, shows)
    case TransferObjects(objects, recipient) =>
      && Keyed(j, {"TransferObjects"}) && Keyed(Part(j, "TransferObjects"), {"objects", "address"})
      && Lists(Part(Part(j, "TransferObjects"), "objects"), objects, shows)
      && shows(Part(Part(j, "TransferObjects"), "address"), recipient)
    case SplitCoin(coin, amounts) =>
      && Keyed(j, {"SplitCoins"}) && Keyed(Part(j, "SplitCoins"), {"coin", "amounts"})
      && shows(Part(Part(j, "SplitCoins"), "coin"), coin)
      && Lists(Part(Part(j, "SplitCoins"), "amounts"), amounts, shows)
    case MergeCoins(target, coins) =>
      && Keyed(j, {"MergeCoins"}) && Keyed(Part(j, "MergeCoins"), {"destination", "sources"})
      && shows(Part(Part(j, "MergeCoins"), "destination"), target)
      && Lists(Part(Part(j, "MergeCoins"), "sources"), coins, shows)
    case Publish(modules, deps) =>
      && Keyed(j, {"Publish"}) && Keyed(Part(j, "Publish"), {"modules", "dependencies"})
      && Lists(Part(Part(j, "Publish"), "modules"), modules, Coded())
      && Lists(Part(Part(j, "Publish"), "dependencies"), deps, Addressed())
    case MakeMoveVec(t, elements) =>
      && Keyed(j, {"MakeMoveVec"}) && Keyed(Part(j, "MakeMoveVec"), {"type", "elements"})
      && (t.None? ==> Part(Part(j, "MakeMoveVec"), "type") == Null)
      && (t.Some? ==> ShowsTag(Part(Part(j, "MakeMoveVec"), "type"), t.value))
      && Lists(Part(Part(j, "MakeMoveVec"), "elements"), elements, shows)
    case Upgrade(_, _, _, _) => Keyed(j, {"Upgrade"}) && ShowsUpgrade(Part(j, "Upgrade"), c, shows)
  }

  // ---- which inputs and calls become intents -------------------------------

  /** 0x2. */
  predicate IsFramework(a: Address) {
    a[31] == 2 && forall i :: 0 <= i < 31 ==> a[i] == 0
  }

  predicate IsRedeemCall(c: Command<Argument>) {
    && c.MoveCall? && IsFramework(c.package)
    && c.function_ == "redeem_funds" && (c.modul == "coin" || c.modul == "balance")
  }

  predicate NamesWithdrawal(b: Block, a: Argument) {
    a.Input? && a.index < |b.inputs| && b.inputs[a.index].FundsWithdrawal?
  }

  /** The first of the arguments that is a withdrawal is input `i`. */
  predicate FirstIs(b: Block, args: seq<Argument>, i: nat) {
    exists k :: && 0 <= k < |args| && args[k] == Input(i) && NamesWithdrawal(b, args[k])
                && forall m :: 0 <= m < k ==> !NamesWithdrawal(b, args[m])
  }

  predicate Redeems(b: Block, c: nat, i: nat) {
    c < |b.commands| && IsRedeemCall(b.commands[c]) && FirstIs(b, b.commands[c].args, i)
  }

  /** The last call to redeem the withdrawal: it becomes an intent. */
  predicate LastRedeems(b: Block, c: nat, i: nat) {
    Redeems(b, c, i) && forall d :: c < d < |b.commands| ==> !Redeems(b, d, i)
  }

  predicate Unredeemed(b: Block, i: nat) {
    i < |b.inputs| && b.inputs[i].FundsWithdrawal? && forall c :: 0 <= c < |b.commands| ==> !Redeems(b, c, i)
  }

  predicate IsPlain(b: Block, i: nat) {
    i < |b.inputs| && !b.inputs[i].FundsWithdrawal?
  }

  ghost predicate Ascends(xs: seq<nat>) {
    forall i, k :: 0 <= i < k < |xs| ==> xs[i] < xs[k]
  }

  /** `plain` are the inputs that stay and `free` the withdrawals that no call redeems, both in order. */
  ghost predicate Layout(b: Block, plain: seq<nat>, free: seq<nat>) {
    && Ascends(plain) && (forall i :: i in plain <==> IsPlain(b, i))
    && Ascends(free) && (forall i :: i in free <==> Unredeemed(b, i))
  }

  predicate NamesOne(j: Json, key: string, n: nat) {
    Keyed(j, {key}) && Part(j, key) == Num(n)
  }

  /** An argument in the document. An input that stays is named by its new place, an unredeemed withdrawal as
      the result of the intent that makes it, and the results of the commands are behind those intents. */
  predicate ShowsArgument(b: Block, plain: seq<nat>, free: seq<nat>, j: Json, a: Argument) {
    match a
    case GasCoin => Keyed(j, {"GasCoin"}) && Part(j, "GasCoin") == Bool(true)
    case Input(i) =>
      && (IsPlain(b, i) ==> exists n :: 0 <= n < |plain| && plain[n] == i && NamesOne(j, "Input", n))
      && (Unredeemed(b, i) ==> exists n :: 0 <= n < |free| && free[n] == i && NamesOne(j, "Result", n))
      && (!IsPlain(b, i) && !Unredeemed(b, i) ==> NamesOne(j, "Input", i))
    case Result(c) => NamesOne(j, "Result", c + |free|)
    case NestedResult(c, s) =>
      Keyed(j, {"NestedResult"}) && Part(j, "NestedResult") == Arr([Num(c + |free|), Num(s)])
  }

  function Shower(b: Block, plain: seq<nat>, free: seq<nat>): (Json, Argument) -> bool {
    (j: Json, a: Argument) => ShowsArgument(b, plain, free, j, a)
  }

  predicate ShowsPlain(b: Block, fmt: Format, j: Json, i: nat) {
    i < |b.inputs| && ShowsInput(j, b.inputs[i], fmt)
  }

  predicate ShowsFree(b: Block, j: Json, i: nat) {
    i < |b.inputs| && b.inputs[i].FundsWithdrawal? && ShowsWithdrawal(j, b.inputs[i].funds)
  }

  /** The intent in the place of the `c`-th command, a call that redeems input `i`. */
  predicate ShowsRedeem(b: Block, j: Json, c: nat, i: nat) {
    && i < |b.inputs| && b.inputs[i].FundsWithdrawal?
    && c < |b.commands| && b.commands[c].MoveCall?
    && ShowsRedeemed(j, b.inputs[i].funds, b.commands[c].modul)
  }

  /** What stands for the `c`-th command: the intent for what it is the last to redeem, or the command. */
  ghost predicate ShowsStep(b: Block, plain: seq<nat>, free: seq<nat>, j: Json, c: nat) {
    && (forall i :: LastRedeems(b, c, i) ==> ShowsRedeem(b, j, c, i))
    && ((forall i :: !LastRedeems(b, c, i)) ==>
        c < |b.commands| && ShowsCommand(j, b.commands[c], Shower(b, plain, free)))
  }

  ghost predicate StepsShow(b: Block, plain: seq<nat>, free: seq<nat>, js: seq<Json>) {
    |js| == |b.commands| && forall c :: 0 <= c < |js| ==> ShowsStep(b, plain, free, js[c], c)
  }

  /** The document holds the inputs that stay, the unredeemed withdrawals as intents, and the commands. */
  ghost predicate ShowsBlock(b: Block, fmt: Format, doc: (seq<Json>, seq<Json>), plain: seq<nat>, free: seq<nat>) {
    && |doc.0| == |plain|
    && (forall k :: 0 <= k < |plain| ==> ShowsPlain(b, fmt, doc.0[k], plain[k]))
    && |doc.1| >= |free|
    && (forall k :: 0 <= k < |free| ==> ShowsFree(b, doc.1[k], free[k]))
    && StepsShow(b, plain, free, doc.1[|free|..])
  }

  // ---- the classification --------------------------------------------------

  lemma {:induction false} FirstWithdrawalIs(b: Block, args: seq<Argument>, i: nat)
    ensures FirstWithdrawal(b.inputs, args) == Some(i) <==> FirstIs(b, args, i)
  {
    if args != [] {
      if NamesWithdrawal(b, args[0]) {
        assert args[0].index == i ==> FirstIs(b, args, i);
      } else {
        FirstWithdrawalIs(b, args[1..], i);
        FirstBehind(b, args, i);
      }
    }
  }

  lemma FirstBehind(b: Block, args: seq<Argument>, i: nat)
    requires args != [] && !NamesWithdrawal(b, args[0])
    ensures FirstIs(b, args, i) <==> FirstIs(b, args[1..], i)
  {
    if FirstIs(b, args, i) {
      var k :| && 0 <= k < |args| && args[k] == Input(i) && NamesWithdrawal(b, args[k])
               && forall m :: 0 <= m < k ==> !NamesWithdrawal(b, args[m]);
      assert args[1..][k - 1] == args[k];
      assert forall m :: 0 <= m < k - 1 ==> args[1..][m] == args[m + 1];
    }
    if FirstIs(b, args[1..], i) {
      var k :| && 0 <= k < |args[1..]| && args[1..][k] == Input(i) && NamesWithdrawal(b, args[1..][k])
               && forall m :: 0 <= m < k ==> !NamesWithdrawal(b, args[1..][m]);
      assert args[k + 1] == args[1..][k];
      forall m | 0 <= m < k + 1 ensures !NamesWithdrawal(b, args[m]) {
        if m > 0 { assert args[m] == args[1..][m - 1]; }
      }
    }
  }

  lemma FrameworkIs(a: Address)
    ensures IsFramework(a) <==> a == FRAMEWORK
  {
    if IsFramework(a) { assert forall i :: 0 <= i < 32 ==> a[i] == FRAMEWORK[i]; }
  }

  lemma CandidateIs(b: Block, c: nat, i: nat)
    requires c < |b.commands|
    ensures Candidate(b, c) == Some(i) <==> Redeems(b, c, i)
  {
    var cmd := b.commands[c];
    if cmd.MoveCall? {
      FrameworkIs(cmd.package);
      FirstWithdrawalIs(b, cmd.args, i);
    }
  }

  lemma RedeemedIs(b: Block, from: nat, i: nat)
    ensures i in RedeemedFrom(b, from) <==> exists c :: from <= c < |b.commands| && Redeems(b, c, i)
  {
    if i in RedeemedFrom(b, from) {
      var c := RedeemingCommand(b, from, i);
      CandidateIs(b, c, i);
    }
    forall c: nat | from <= c < |b.commands| && Redeems(b, c, i) ensures i in RedeemedFrom(b, from) {
      CandidateIs(b, c, i);
      CandidateIsRedeemed(b, from, c);
    }
  }

  lemma LastIs(b: Block, c: nat, i: nat)
    ensures LastRedeems(b, c, i) <==> IsRedeem(b, c) && Candidate(b, c) == Some(i)
  {
    if c < |b.commands| {
      CandidateIs(b, c, i);
      RedeemedIs(b, c + 1, i);
    }
  }

  lemma FreeIs(b: Block, i: nat)
    ensures i in Free(b) <==> Unredeemed(b, i)
    ensures i in Plain(b) <==> IsPlain(b, i)
  {
    RedeemedIs(b, 0, i);
  }

  lemma {:induction false} AscendingAscends(n: nat, s: set<nat>)
    ensures Ascends(Ascending(n, s))
  {
    if n > 0 { AscendingAscends(n - 1, s); }
  }

  lemma LayoutHolds(b: Block)
    ensures Layout(b, PlainSeq(b), FreeSeq(b))
  {
    AscendingAscends(|b.inputs|, Plain(b));
    AscendingAscends(|b.inputs|, Free(b));
    forall i: nat ensures i in Free(b) <==> Unredeemed(b, i) ensures i in Plain(b) <==> IsPlain(b, i) { FreeIs(b, i); }
  }

  // ---- arguments and commands ----------------------------------------------

  lemma PlaceShown(b: Block, i: nat)
    ensures ShowsArgument(b, PlainSeq(b), FreeSeq(b), ArgToJson(ArgOut(b, Input(i))), Input(i))
  {
    FreeIs(b, i);
    if i in Free(b) { RankPosition(|b.inputs|, i, Free(b)); }
    if i in Plain(b) { RankPosition(|b.inputs|, i, Plain(b)); }
  }

  lemma ArgumentShown(b: Block, a: Argument)
    ensures ShowsArgument(b, PlainSeq(b), FreeSeq(b), ArgToJson(ArgOut(b, a)), a)
  {
    if a.Input? { PlaceShown(b, a.index); }
  }

  lemma TagsShown(ts: seq<TypeTag>)
    requires forall t :: t in ts ==> TagText(t).Ok?
    ensures Lists(Tags(ts), ts, Tagged())
  {
  }

  lemma CommandShown(c: Command<Argument>, toJson: Argument -> Json, shows: (Json, Argument) -> bool)
    requires forall a :: shows(toJson(a), a)
    requires CommandPrints(c)
    ensures ShowsCommand(CommandToJson(c.Map(toJson)), c, shows)
  {
    match c
    case MoveCall(_, _, _, ts, _) => CallShown(c, toJson, shows);
    case Upgrade(_, _, _, _) => UpgradeShown(c, toJson, shows);
    case MakeMoveVec(_, _) => VectorShown(c, toJson, shows);
    case _ =>
  }

  lemma CallShown(c: Command<Argument>, toJson: Argument -> Json, shows: (Json, Argument) -> bool)
    requires c.MoveCall? && CommandPrints(c)
    requires forall a :: shows(toJson(a), a)
    ensures ShowsCommand(CommandToJson(c.Map(toJson)), c, shows)
  {
    TagsShown(c.typeArgs);
  }

  lemma VectorShown(c: Command<Argument>, toJson: Argument -> Json, shows: (Json, Argument) -> bool)
    requires c.MakeMoveVec? && CommandPrints(c)
    requires forall a :: shows(toJson(a), a)
    ensures ShowsCommand(CommandToJson(c.Map(toJson)), c, shows)
  {
    if c.elemType.Some? { assert c.elemType.value in TagsOf(c); }
  }

  lemma UpgradeShown(c: Command<Argument>, toJson: Argument -> Json, shows: (Json, Argument) -> bool)
    requires c.Upgrade?
    requires forall a :: shows(toJson(a), a)
    ensures ShowsCommand(CommandToJson(c.Map(toJson)), c, shows)
  {
  }

  lemma InputShown(ca: CallArg, fmt: Format)
    requires !ca.FundsWithdrawal?
    ensures ShowsInput(CallArgToJson(ca, fmt), ca, fmt)
  {
    if ca.Object? { ObjectShown(ca.obj, fmt); }
  }

  lemma ObjectShown(o: ObjectArg, fmt: Format)
    ensures ShowsInput(CallArgToJson(Object(o), fmt), Object(o), fmt)
  {
  }

  /** A withdrawal printed as an input, which an export does not emit. */
  lemma FundsShown(w: Withdrawal, fmt: Format)
    ensures var j := CallArgToJson(FundsWithdrawal(w), fmt);
      && Keyed(j, {"FundsWithdrawal"})
      && Keyed(Part(j, "FundsWithdrawal"), {"reservation", "typeArg", "withdrawFrom"})
      && Part(Part(j, "FundsWithdrawal"), "reservation") == Obj(map["MaxAmountU64" := Str(Decimal(w.amount))])
      && Part(Part(j, "FundsWithdrawal"), "typeArg") == Obj(map["Balance" := Str(TagString(w.typ))])
      && Part(Part(j, "FundsWithdrawal"), "withdrawFrom") ==
         Obj(match w.source case Sender => map["Sender" := Bool(true)] case Sponsor => map["Sponsor" := Bool(true)])
  {
  }

  lemma WithdrawalShown(w: Withdrawal)
    requires TagText(w.typ).Ok?
    ensures ShowsWithdrawal(WithdrawIntent(w), w)
  {
  }

  lemma RedeemedShown(w: Withdrawal, k: OutputKind)
    requires TagText(w.typ).Ok?
    ensures ShowsRedeemed(RedeemIntent(w, k), w, if k.CoinKind? then "coin" else "balance")
  {
  }

  lemma RedeemShown(b: Block, c: nat)
    requires IsRedeem(b, c) && Printable(b)
    ensures ShowsRedeem(b, ExportCommand(b, c), c, Candidate(b, c).value)
  {
    RedeemedShown(b.inputs[Candidate(b, c).value].funds, RedeemKind(b.commands[c]).value);
  }

  lemma KeptShown(b: Block, c: nat)
    requires c < |b.commands| && !IsRedeem(b, c) && Printable(b)
    ensures ShowsCommand(ExportCommand(b, c), b.commands[c], Shower(b, PlainSeq(b), FreeSeq(b)))
  {
    var toJson, shows := (a: Argument) => ArgToJson(ArgOut(b, a)), Shower(b, PlainSeq(b), FreeSeq(b));
    forall a ensures shows(toJson(a), a) { ArgumentShown(b, a); }
    TxbExport.KeptJson(b, c, toJson);
    CommandShown(b.commands[c], toJson, shows);
  }

  lemma StepShown(b: Block, c: nat, j: Json)
    requires c < |b.commands| && Printable(b) && j == ExportCommand(b, c)
    ensures ShowsStep(b, PlainSeq(b), FreeSeq(b), j, c)
  {
    if IsRedeem(b, c) {
      var i := Candidate(b, c).value;
      RedeemShown(b, c);
      LastIs(b, c, i);
      forall k: nat | LastRedeems(b, c, k) ensures k == i { LastIs(b, c, k); }
    } else {
      KeptShown(b, c);
      forall k: nat ensures !LastRedeems(b, c, k) { LastIs(b, c, k); }
    }
  }

  // ---- the result ----------------------------------------------------------

  /** Which blocks export: the standard format has no unredeemed withdrawals, and every tag that is shown
      has a text. */
  lemma ExportsExactly(b: Block, fmt: Format)
    ensures Export(b, fmt).Ok? <==>
      && (fmt.Standard? ==> forall i :: !Unredeemed(b, i))
      && (forall i :: 0 <= i < |b.inputs| && b.inputs[i].FundsWithdrawal? ==> TagText(b.inputs[i].funds.typ).Ok?)
      && (forall c, t :: 0 <= c < |b.commands| && t in TagsOf(b.commands[c]) && (forall i :: !LastRedeems(b, c, i)) ==>
           TagText(t).Ok?)
  {
    forall i: nat ensures i in Free(b) <==> Unredeemed(b, i) { FreeIs(b, i); }
    forall c | 0 <= c < |b.commands| ensures IsRedeem(b, c) <==> exists i :: LastRedeems(b, c, i) {
      if IsRedeem(b, c) { LastIs(b, c, Candidate(b, c).value); }
      forall i: nat | LastRedeems(b, c, i) ensures IsRedeem(b, c) { LastIs(b, c, i); }
    }
  }

  lemma InputsShown(b: Block, fmt: Format, plain: seq<nat>, js: seq<Json>)
    requires plain == PlainSeq(b) && js == ExportInputs(b, fmt)
    ensures |js| == |plain| && forall k :: 0 <= k < |plain| ==> ShowsPlain(b, fmt, js[k], plain[k])
  {
    forall k | 0 <= k < |plain| ensures ShowsPlain(b, fmt, js[k], plain[k]) { InputShown(b.inputs[plain[k]], fmt); }
  }

  lemma FreeShown(b: Block, free: seq<nat>, js: seq<Json>)
    requires Printable(b) && free == FreeSeq(b) && js == ExportWithdrawals(b)
    ensures |js| == |free| && forall k :: 0 <= k < |free| ==> ShowsFree(b, js[k], free[k])
  {
    forall k | 0 <= k < |free| ensures ShowsFree(b, js[k], free[k]) { WithdrawalShown(b.inputs[free[k]].funds); }
  }

  lemma StepsShown(b: Block, js: seq<Json>)
    requires Printable(b) && js == ExportBodies(b)
    ensures StepsShow(b, PlainSeq(b), FreeSeq(b), js)
  {
    forall c | 0 <= c < |b.commands| ensures ShowsStep(b, PlainSeq(b), FreeSeq(b), js[c], c) {
      StepShown(b, c, js[c]);
    }
  }

  /** What the document shows. */
  lemma DocumentShows(b: Block, fmt: Format)
    requires Export(b, fmt).Ok?
    ensures Layout(b, PlainSeq(b), FreeSeq(b))
    ensures ShowsBlock(b, fmt, Export(b, fmt).value, PlainSeq(b), FreeSeq(b))
  {
    var plain, free, doc := PlainSeq(b), FreeSeq(b), Export(b, fmt).value;
    var intents, bodies := ExportWithdrawals(b), ExportBodies(b);
    LayoutHolds(b);
    InputsShown(b, fmt, plain, doc.0);
    FreeShown(b, free, intents);
    StepsShown(b, bodies);
    assert doc.1 == intents + bodies && doc.1[|free|..] == bodies;
  }

  // ---- the schema holds ----------------------------------------------------

  lemma InputObeys(j: Json, ca: CallArg, fmt: Format)
    requires ShowsInput(j, ca, fmt)
    ensures SchemaInput(j, fmt)
  {
  }

  lemma WithdrawalObeys(j: Json, w: Withdrawal)
    requires ShowsWithdrawal(j, w)
    ensures SchemaIntent(j, Extended)
  {
  }

  lemma RedeemedObeys(j: Json, w: Withdrawal, kind: string, fmt: Format)
    requires ShowsRedeemed(j, w, kind) && (kind == "coin" || kind == "balance")
    ensures SchemaIntent(j, fmt)
  {
  }

  lemma StepObeys(b: Block, c: nat, fmt: Format)
    requires c < |b.commands| && Printable(b)
    ensures SchemaCommand(ExportCommand(b, c)) || SchemaIntent(ExportCommand(b, c), fmt)
  {
    if IsRedeem(b, c) {
      RedeemShown(b, c);
      RedeemedObeys(ExportCommand(b, c), b.inputs[Candidate(b, c).value].funds, b.commands[c].modul, fmt);
    } else {
      ExportedCommand(b, c);
      CommandRoundTrip(b.commands[c].Map(a => ArgOut(b, a)));
    }
  }

  lemma ExportedCommand(b: Block, c: nat)
    requires c < |b.commands| && !IsRedeem(b, c)
    ensures ExportCommand(b, c) == CommandToJson(b.commands[c].Map(a => ArgOut(b, a)).Map(ArgToJson))
  {
    MapCompose(b.commands[c], a => ArgOut(b, a), ArgToJson, a => ArgToJson(ArgOut(b, a)));
  }

  lemma IntentsObey(b: Block, fmt: Format, j: Json)
    requires Export(b, fmt).Ok? && j in ExportWithdrawals(b)
    ensures SchemaIntent(j, fmt)
  {
    var free, js := FreeSeq(b), ExportWithdrawals(b);
    FreeShown(b, free, js);
    var k :| 0 <= k < |js| && js[k] == j;
    assert free[k] in Free(b) && ShowsFree(b, js[k], free[k]);
    WithdrawalObeys(j, b.inputs[free[k]].funds);
  }

  /** Every input and command of an exported document obeys the schema. */
  lemma DocumentObeys(b: Block, fmt: Format)
    requires Export(b, fmt).Ok?
    ensures SchemaDocument(Export(b, fmt).value, fmt)
  {
    var doc := Export(b, fmt).value;
    InputsShown(b, fmt, PlainSeq(b), doc.0);
    forall j | j in doc.0 ensures SchemaInput(j, fmt) {
      var k :| 0 <= k < |doc.0| && doc.0[k] == j;
      assert ShowsPlain(b, fmt, doc.0[k], PlainSeq(b)[k]);
      InputObeys(j, b.inputs[PlainSeq(b)[k]], fmt);
    }
    forall j | j in doc.1 ensures SchemaCommand(j) || SchemaIntent(j, fmt) {
      if j in ExportWithdrawals(b) {
        IntentsObey(b, fmt, j);
      } else {
        var c :| 0 <= c < |b.commands| && ExportBodies(b)[c] == j;
        StepObeys(b, c, fmt);
      }
    }
  }

  // ---- documents from other tools ------------------------------------------

  /** A vector command without a type, or with an empty one, has none. */
  lemma VectorWithoutType(v: map<string, Json>)
    requires "type" in v ==> v["type"] == Null || v["type"] == Str("")
    ensures MakeMoveVecOf(v).Ok? ==> MakeMoveVecOf(v).value.MakeMoveVec? && MakeMoveVecOf(v).value.elemType == None
  {
  }

  /** A deferred object without its flags is read as if they were false, and without its type as one of no
      known type; its reference kind is not in the document. */
  lemma DeferredIsRead(u: map<string, Json>, x: Unresolved)
    requires "objectId" in u && u["objectId"] == Str(x.id) && x.refType == 0
    requires if "isOptional" in u then u["isOptional"] == Bool(x.isOptional) else !x.isOptional
    requires if "isReceiving" in u then u["isReceiving"] == Bool(x.isReceiving) else !x.isReceiving
    requires if "typeStr" in u then u["typeStr"] == Str(x.typeStr) else x.typeStr == ""
    ensures JsonToCallArg(Obj(map["UnresolvedObject" := Obj(u)])) == Ok(UnresolvedObject(x))
  {
  }


  /** The data of an intent; none is like an empty object. */
  function DataOf(intent: Json): Json {
    if intent.Obj? && "data" in intent.fields then intent.fields["data"] else Obj(map[])
  }

  /** The withdrawal that the data asks for: without a source it draws on the sender. */
  predicate AsksFor(data: Json, w: Withdrawal) {
    && data.Obj?
    && NatOf(Part(data, "amount")) == Ok(w.amount)
    && TagOf(Part(data, "type")) == Ok(w.typ)
    && (if "source" in data.fields && data.fields["source"] == Str("SPONSOR") then w.source.Sponsor?
        else w.source.Sender? && ("source" in data.fields ==> data.fields["source"] == Str("SENDER")))
  }

  predicate NoType(data: Json) {
    Part(data, "type") == Null || Part(data, "type") == Str("")
  }

  predicate IsSui(t: TypeTag) {
    t.Struct? && IsFramework(t.address) && t.mod == "sui" && t.name == "SUI" && t.params == []
  }

  /** The withdrawal that the data asks for, always from the sender; without a type it is of SUI. */
  predicate AsksToRedeem(data: Json, w: Withdrawal) {
    && data.Obj?
    && NatOf(Part(data, "balance")) == Ok(w.amount)
    && (if NoType(data) then IsSui(w.typ) else TagOf(Part(data, "type")) == Ok(w.typ))
    && w.source.Sender?
  }

  /** A withdrawal becomes the last input, which the intent's results name. */
  lemma WithdrawalIsRead(st: ImportState, idx: nat, intent: Json, w: Withdrawal)
    requires intent.Obj? && Part(intent, "name") == Str("FundsWithdrawal") && AsksFor(DataOf(intent), w)
    ensures ImportIntent(st, idx, intent) ==
      Ok(ImportState(Block(st.block.inputs + [FundsWithdrawal(w)], st.block.commands),
                     st.rm[idx := Input(|st.block.inputs|)]))
  {
  }

  lemma WithdrawalIsRefused(st: ImportState, idx: nat, intent: Json)
    requires intent.Obj? && Part(intent, "name") == Str("FundsWithdrawal")
    requires forall w :: !AsksFor(DataOf(intent), w)
    ensures ImportIntent(st, idx, intent).Err?
  {
    var data := DataOf(intent);
    if ImportIntent(st, idx, intent).Ok? {
      var w := WithdrawData(data.fields).value;
      assert AsksFor(data, w);
    }
  }

  /** A withdrawal from the sender and the call that redeems it, as a balance if the data says so and
      otherwise as a coin; the intent's results name the call. */
  lemma RedeemIsRead(st: ImportState, idx: nat, intent: Json, w: Withdrawal, framework: Address)
    requires intent.Obj? && Part(intent, "name") == Str("CoinWithBalance") && AsksToRedeem(DataOf(intent), w)
    requires IsFramework(framework)
    ensures ImportIntent(st, idx, intent) ==
      Ok(ImportState(Block(st.block.inputs + [FundsWithdrawal(w)],
                           st.block.commands +
                           [MoveCall(framework,
                                     if Part(DataOf(intent), "outputKind") == Str("balance") then "balance" else "coin",
                                     "redeem_funds", [w.typ], [Input(|st.block.inputs|)])]),
                     st.rm[idx := Argument.Result(|st.block.commands|)]))
  {
    FrameworkIs(framework);
    if NoType(DataOf(intent)) {
      FrameworkIs(w.typ.address);
      assert w.typ == SUI_TYPE;
    }
    assert RedeemData(DataOf(intent).fields) == Ok(w);
  }

  lemma RedeemIsRefused(st: ImportState, idx: nat, intent: Json)
    requires intent.Obj? && Part(intent, "name") == Str("CoinWithBalance")
    requires forall w :: !AsksToRedeem(DataOf(intent), w)
    ensures ImportIntent(st, idx, intent).Err?
  {
    var data := DataOf(intent);
    if ImportIntent(st, idx, intent).Ok? {
      var w := RedeemData(data.fields).value;
      FrameworkIs(FRAMEWORK);
      assert AsksToRedeem(data, w);
    }
  }

  /** How an intent is read: missing keys have their defaults, and what is not read is refused. */
  lemma IntentIsRead(st: ImportState, idx: nat, intent: Json)
    ensures ImportIntent(st, idx, intent).Ok? <==>
      && intent.Obj?
      && (|| (Part(intent, "name") == Str("FundsWithdrawal") && exists w :: AsksFor(DataOf(intent), w))
          || (Part(intent, "name") == Str("CoinWithBalance") && exists w :: AsksToRedeem(DataOf(intent), w)))
  {
    if intent.Obj? && Part(intent, "name") == Str("FundsWithdrawal") {
      if w :| AsksFor(DataOf(intent), w) { WithdrawalIsRead(st, idx, intent, w); }
      else { WithdrawalIsRefused(st, idx, intent); }
    }
    if intent.Obj? && Part(intent, "name") == Str("CoinWithBalance") {
      if w :| AsksToRedeem(DataOf(intent), w) {
        FrameworkIs(FRAMEWORK);
        RedeemIsRead(st, idx, intent, w, FRAMEWORK);
      } else {
        RedeemIsRefused(st, idx, intent);
      }
    }
  }
}
