// Export of a block to the JSON interchange form and its import: the detection of intents,
// the renumbering of inputs and results, and the replay with a growing result map.

module TxbJson {
  import opened Base
  import opened Ptb
  import opened Json
  import opened TypeTags
  import StructTags

  datatype Format = Standard | Extended

  // ---- inputs --------------------------------------------------------------

  function RefToJson(r: ObjectRef): Json {
    Obj(map["objectId" := Str(PrintAddress(r.id)), "version" := Str(Decimal(r.version)), "digest" := Str(r.digest)])
  }

  function JsonToRef(j: Json): Base.Result<ObjectRef> {
    if !j.Obj? then Err("not an object reference")
    else
      var ij :- Need(j.fields, "objectId");
      var id :- AddressOf(ij);
      var vj :- Need(j.fields, "version");
      var v :- NatOf(vj);
      var dj :- Need(j.fields, "digest");
      var d :- TextOf(dj);
      Ok(ObjectRef(id, v, d))
  }

  function SourceName(s: Source): string {
    if s.Sender? then "SENDER" else "SPONSOR"
  }

  function SourceOf(name: string): Base.Result<Source> {
    if name == "SENDER" then Ok(Sender) else if name == "SPONSOR" then Ok(Sponsor) else Err("unknown source")
  }

  /** `_call_arg_to_json`; the standard format keeps only the id of an unresolved object. */
  function CallArgToJson(ca: CallArg, fmt: Format): Json {
    match ca
    case Pure(data) => Obj(map["Pure" := Obj(map["bytes" := B64(data)])])
    case Object(ImmOrOwned(r)) => Obj(map["Object" := Obj(map["ImmOrOwnedObject" := RefToJson(r)])])
    case Object(Receiving(r)) => Obj(map["Object" := Obj(map["Receiving" := RefToJson(r)])])
    case Object(Shared(id, v, mutable)) =>
      Obj(map["Object" := Obj(map["SharedObject" := Obj(map["objectId" := Str(PrintAddress(id)),
                                                            "initialSharedVersion" := Str(Decimal(v)),
                                                            "mutable" := Bool(mutable)])])])
    case FundsWithdrawal(w) =>
      Obj(map["FundsWithdrawal" := Obj(map["reservation" := Obj(map["MaxAmountU64" := Str(Decimal(w.amount))]),
                                           "typeArg" := Obj(map["Balance" := Str(TagString(w.typ))]),
                                           "withdrawFrom" := Obj(map[SourceKey(w.source) := Bool(true)])])])
    case UnresolvedObject(u) =>
      Obj(map["UnresolvedObject" :=
        Obj(if fmt.Standard? then map["objectId" := Str(u.id)]
            else map["objectId" := Str(u.id), "isOptional" := Bool(u.isOptional),
                     "isReceiving" := Bool(u.isReceiving), "typeStr" := Str(u.typeStr)])])
  }

  function SourceKey(s: Source): string {
    if s.Sender? then "Sender" else "Sponsor"
  }

  function JsonToObjectArg(o: Json): Base.Result<CallArg> {
    if !o.Obj? then Err("unknown object sub-type")
    else if "ImmOrOwnedObject" in o.fields then
      var r :- JsonToRef(o.fields["ImmOrOwnedObject"]);
      Ok(Object(ImmOrOwned(r)))
    else if "SharedObject" in o.fields then
      var s := o.fields["SharedObject"];
      if !s.Obj? then Err("not a shared reference")
      else
        var ij :- Need(s.fields, "objectId");
        var id :- AddressOf(ij);
        var vj :- Need(s.fields, "initialSharedVersion");
        var v :- NatOf(vj);
        var mj :- Need(s.fields, "mutable");
        if !mj.Bool? then Err("not a flag") else Ok(Object(Shared(id, v, mj.b)))
    else if "Receiving" in o.fields then
      var r :- JsonToRef(o.fields["Receiving"]);
      Ok(Object(Receiving(r)))
    else Err("unknown object sub-type")
  }

  function JsonToWithdrawal(f: Json): Base.Result<CallArg> {
    if !f.Obj? then Err("not a withdrawal")
    else
      var rj :- Need(f.fields, "reservation");
      var tj :- Need(f.fields, "typeArg");
      var sj :- Need(f.fields, "withdrawFrom");
      if !rj.Obj? || !tj.Obj? || !sj.Obj? then Err("not a withdrawal")
      else
        var aj :- Need(rj.fields, "MaxAmountU64");
        var amount :- NatOf(aj);
        var bj :- Need(tj.fields, "Balance");
        var typ :- TagOf(bj);
        if sj.fields.Keys == {"Sender"} then Ok(FundsWithdrawal(Withdrawal(amount, typ, Sender)))
        else if sj.fields.Keys == {"Sponsor"} then Ok(FundsWithdrawal(Withdrawal(amount, typ, Sponsor)))
        else Err("unknown source")
  }

  /** `_json_to_call_arg`, without the unresolved pure inputs that the export never emits. */
  function JsonToCallArg(j: Json): Base.Result<CallArg> {
    if !j.Obj? then Err("unknown input shape")
    else if "Pure" in j.fields then
      if !j.fields["Pure"].Obj? then Err("not a pure input")
      else
        var bj :- Need(j.fields["Pure"].fields, "bytes");
        var data :- BytesOf(bj);
        Ok(Pure(data))
    else if "Object" in j.fields then JsonToObjectArg(j.fields["Object"])
    else if "FundsWithdrawal" in j.fields then JsonToWithdrawal(j.fields["FundsWithdrawal"])
    else if "UnresolvedObject" in j.fields then
      var u := j.fields["UnresolvedObject"];
      if !u.Obj? then Err("not an unresolved object")
      else
        var ij :- Need(u.fields, "objectId");
        var id :- TextOf(ij);
        var oj := Default(u.fields, "isOptional", Bool(false));
        var rj := Default(u.fields, "isReceiving", Bool(false));
        var tj := Default(u.fields, "typeStr", Str(""));
        if !oj.Bool? || !rj.Bool? || !tj.Str? then Err("bad flags")
        else Ok(UnresolvedObject(Unresolved(id, oj.b, rj.b, 0, tj.s)))
    else Err("unknown input shape")
  }

  /** The withdrawal with its type as it comes back. */
  function Returned(w: Withdrawal): Withdrawal {
    w.(typ := Back(w.typ))
  }

  /** What an input is after one trip through JSON: the reference kind of a deferred object is
      reset, the standard format forgets its flags as well, and the type of a withdrawal is read back. */
  function AfterJson(ca: CallArg, fmt: Format): CallArg {
    match ca
    case UnresolvedObject(u) =>
      UnresolvedObject(if fmt.Standard? then Unresolved(u.id, false, false, 0, "") else u.(refType := 0))
    case FundsWithdrawal(w) => FundsWithdrawal(Returned(w))
    case _ => ca
  }

  lemma RefRoundTrip(r: ObjectRef)
    ensures JsonToRef(RefToJson(r)) == Ok(r)
  {
    ParsePrintAddress(r.id);
    ParseDecimalInverse(r.version);
  }

  lemma ObjectRoundTrip(o: ObjectArg, fmt: Format)
    ensures JsonToCallArg(CallArgToJson(Object(o), fmt)) == Ok(Object(o))
  {
    match o
    case ImmOrOwned(r) => RefRoundTrip(r);
    case Receiving(r) => RefRoundTrip(r);
    case Shared(id, v, mutable) => SharedRoundTrip(id, v, mutable, fmt);
  }

  lemma SharedRoundTrip(id: Address, v: nat, mutable: bool, fmt: Format)
    ensures JsonToCallArg(CallArgToJson(Object(Shared(id, v, mutable)), fmt)) == Ok(Object(Shared(id, v, mutable)))
  {
    ParsePrintAddress(id);
    ParseDecimalInverse(v);
  }

  lemma SourceReads(s: Source, sj: map<string, Json>)
    requires sj == map[SourceKey(s) := Bool(true)]
    ensures sj.Keys == {SourceKey(s)}
    ensures sj.Keys == {"Sender"} <==> s.Sender?
    ensures sj.Keys == {"Sponsor"} <==> s.Sponsor?
  {
    assert SourceKey(s) in sj.Keys;
  }

  lemma WithdrawalReads(w: Withdrawal, f: map<string, Json>, rj: map<string, Json>, tj: map<string, Json>,
                        sj: map<string, Json>, typ: Base.Result<TypeTag>, r: Base.Result<CallArg>)
    requires f == map["reservation" := Obj(rj), "typeArg" := Obj(tj), "withdrawFrom" := Obj(sj)]
    requires "MaxAmountU64" in rj && rj["MaxAmountU64"] == Str(Decimal(w.amount))
    requires "Balance" in tj && TagOf(tj["Balance"]) == typ && sj == map[SourceKey(w.source) := Bool(true)]
    requires r == JsonToWithdrawal(Obj(f))
    ensures (r.Ok? <==> typ.Ok?) && (r.Ok? ==> r.value == FundsWithdrawal(w.(typ := typ.value)))
  {
    ParseDecimalInverse(w.amount);
    SourceReads(w.source, sj);
    assert f["reservation"] == Obj(rj) && f["typeArg"] == Obj(tj) && f["withdrawFrom"] == Obj(sj);
  }

  lemma WithdrawalRoundTrip(w: Withdrawal, fmt: Format)
    ensures var r := JsonToCallArg(CallArgToJson(FundsWithdrawal(w), fmt));
      (r.Ok? <==> Returns(w.typ)) && (r.Ok? ==> r.value == FundsWithdrawal(Returned(w)))
  {
    var rj, tj := map["MaxAmountU64" := Str(Decimal(w.amount))], map["Balance" := Str(TagString(w.typ))];
    var sj := map[SourceKey(w.source) := Bool(true)];
    var f := map["reservation" := Obj(rj), "typeArg" := Obj(tj), "withdrawFrom" := Obj(sj)];
    StringRead(w.typ);
    WithdrawalReads(w, f, rj, tj, sj, ReadTag(TagString(w.typ)), JsonToWithdrawal(Obj(f)));
    assert CallArgToJson(FundsWithdrawal(w), fmt).fields["FundsWithdrawal"] == Obj(f);
  }

  /** An input is read back as it is after JSON, unless it is a withdrawal whose type is not read. */
  lemma CallArgRoundTrip(ca: CallArg, fmt: Format)
    ensures var r := JsonToCallArg(CallArgToJson(ca, fmt));
      (r.Ok? <==> (ca.FundsWithdrawal? ==> Returns(ca.funds.typ))) && (r.Ok? ==> r.value == AfterJson(ca, fmt))
  {
    match ca
    case Pure(data) =>
    case Object(o) => ObjectRoundTrip(o, fmt);
    case FundsWithdrawal(w) => WithdrawalRoundTrip(w, fmt);
    case UnresolvedObject(u) =>
  }

  // ---- detecting intents ---------------------------------------------------

  datatype OutputKind = CoinKind | BalanceKind

  function KindName(k: OutputKind): string {
    if k.CoinKind? then "coin" else "balance"
  }

  const SUI_TYPE: TypeTag := StructTags.Struct(FRAMEWORK, "sui", "SUI", [])

  function RedeemKind(c: Command<Argument>): Option<OutputKind> {
    if !c.MoveCall? || c.package != FRAMEWORK || c.function_ != "redeem_funds" then None
    else if c.modul == "coin" then Some(CoinKind)
    else if c.modul == "balance" then Some(BalanceKind)
    else None
  }

  predicate IsWithdrawal(inputs: seq<CallArg>, a: Argument) {
    a.Input? && a.index < |inputs| && inputs[a.index].FundsWithdrawal?
  }

  /** The first argument that is a withdrawal input. */
  function FirstWithdrawal(inputs: seq<CallArg>, args: seq<Argument>): (r: Option<nat>)
    ensures r.Some? ==> r.value < |inputs| && inputs[r.value].FundsWithdrawal? && Input(r.value) in args
  {
    if args == [] then None
    else if IsWithdrawal(inputs, args[0]) then Some(args[0].index)
    else FirstWithdrawal(inputs, args[1..])
  }

  /** The withdrawal that a command redeems, if it is a `redeem_funds` call on one. */
  function Candidate(b: Block, c: nat): (r: Option<nat>)
    requires c < |b.commands|
    ensures r.Some? ==> r.value < |b.inputs| && b.inputs[r.value].FundsWithdrawal?
    ensures r.Some? ==> RedeemKind(b.commands[c]).Some? && Input(r.value) in b.commands[c].Args()
  {
    if RedeemKind(b.commands[c]).Some? then FirstWithdrawal(b.inputs, b.commands[c].args) else None
  }

  /** The withdrawals redeemed by the commands from `c` on. */
  function RedeemedFrom(b: Block, c: nat): (s: set<nat>)
    ensures forall i :: i in s ==> i < |b.inputs| && b.inputs[i].FundsWithdrawal?
    decreases |b.commands| - c
  {
    if c >= |b.commands| then {}
    else RedeemedFrom(b, c + 1) + (if Candidate(b, c).Some? then {Candidate(b, c).value} else {})
  }

  /** The command becomes an intent: it is the last one to redeem its withdrawal. */
  predicate IsRedeem(b: Block, c: nat) {
    c < |b.commands| && Candidate(b, c).Some? && Candidate(b, c).value !in RedeemedFrom(b, c + 1)
  }

  function Redeemed(b: Block): set<nat> {
    RedeemedFrom(b, 0)
  }

  function Plain(b: Block): set<nat> {
    set i | 0 <= i < |b.inputs| && !b.inputs[i].FundsWithdrawal?
  }

  function Free(b: Block): set<nat> {
    set i | 0 <= i < |b.inputs| && b.inputs[i].FundsWithdrawal? && i !in Redeemed(b)
  }

  // ---- ascending index lists -----------------------------------------------

  /** The members of `s` below `n`, in order. */
  function Ascending(n: nat, s: set<nat>): (xs: seq<nat>)
    ensures forall x :: x in xs <==> x < n && x in s
    ensures forall k :: 0 <= k < |xs| ==> xs[k] < n && xs[k] in s
  {
    if n == 0 then [] else Ascending(n - 1, s) + (if n - 1 in s then [n - 1] else [])
  }

  lemma {:induction false} AscendingNoDup(n: nat, s: set<nat>)
    ensures NoDup(Ascending(n, s))
  {
    if n > 0 { AscendingNoDup(n - 1, s); }
  }

  /** How many members of `s` lie below `i`. */
  function Rank(i: nat, s: set<nat>): nat {
    |Ascending(i, s)|
  }

  lemma {:induction false} RankPosition(n: nat, i: nat, s: set<nat>)
    requires i < n && i in s
    ensures Rank(i, s) < |Ascending(n, s)| && Ascending(n, s)[Rank(i, s)] == i
  {
    var before := Ascending(n - 1, s);
    if i < n - 1 {
      RankPosition(n - 1, i, s);
      assert Ascending(n, s)[Rank(i, s)] == before[Rank(i, s)];
    } else {
      assert Ascending(n, s) == before + [i];
    }
  }

  // ---- export --------------------------------------------------------------

  /** `_rewrite`: the renumbered argument, past the prepended intents. */
  function ArgOut(b: Block, a: Argument): Argument {
    match a
    case GasCoin => GasCoin
    case Input(i) =>
      if i in Free(b) then Argument.Result(Rank(i, Free(b)))
      else if i in Plain(b) then Input(Rank(i, Plain(b)))
      else Input(i)
    case Result(c) => Argument.Result(c + |FreeSeq(b)|)
    case NestedResult(c, s) => NestedResult(c + |FreeSeq(b)|, s)
  }

  function Intent(name: string, data: map<string, Json>): Json {
    Obj(map["$Intent" := Obj(map["name" := Str(name), "inputs" := Obj(map[]), "data" := Obj(data)])])
  }

  function WithdrawIntent(w: Withdrawal): Json {
    Intent("FundsWithdrawal",
      map["amount" := Str(Decimal(w.amount)), "type" := Str(TagString(w.typ)), "source" := Str(SourceName(w.source))])
  }

  function RedeemIntent(w: Withdrawal, k: OutputKind): Json {
    Intent("CoinWithBalance",
      map["balance" := Str(Decimal(w.amount)), "type" := Str(TagString(w.typ)), "outputKind" := Str(KindName(k))])
  }

  function ExportCommand(b: Block, c: nat): Json
    requires c < |b.commands|
  {
    if IsRedeem(b, c) then
      RedeemIntent(b.inputs[Candidate(b, c).value].funds, RedeemKind(b.commands[c]).value)
    else CommandToJson(b.commands[c].Map(a => ArgToJson(ArgOut(b, a))))
  }

  function PlainSeq(b: Block): (xs: seq<nat>)
    ensures forall x :: x in xs <==> x in Plain(b)
    ensures forall k :: 0 <= k < |xs| ==> xs[k] in Plain(b)
  {
    Ascending(|b.inputs|, Plain(b))
  }

  function FreeSeq(b: Block): (xs: seq<nat>)
    ensures forall x :: x in xs <==> x in Free(b)
    ensures forall k :: 0 <= k < |xs| ==> xs[k] in Free(b)
  {
    Ascending(|b.inputs|, Free(b))
  }

  function ExportInputs(b: Block, fmt: Format): seq<Json> {
    seq(|PlainSeq(b)|, t requires 0 <= t < |PlainSeq(b)| => CallArgToJson(b.inputs[PlainSeq(b)[t]], fmt))
  }

  function ExportWithdrawals(b: Block): (js: seq<Json>)
    ensures |js| == |FreeSeq(b)|
  {
    seq(|FreeSeq(b)|, t requires 0 <= t < |FreeSeq(b)| => WithdrawIntent(b.inputs[FreeSeq(b)[t]].funds))
  }

  function ExportBodies(b: Block): (js: seq<Json>)
    ensures |js| == |b.commands|
  {
    seq(|b.commands|, c requires 0 <= c < |b.commands| => ExportCommand(b, c))
  }

  function ExportCommands(b: Block): seq<Json> {
    ExportWithdrawals(b) + ExportBodies(b)
  }

  predicate CommandPrints(c: Command<Argument>) {
    forall t :: t in TagsOf(c) ==> TagText(t).Ok?
  }

  /** Every type tag that the document shows has a text: those of the withdrawals, and those of the
      commands that do not become intents. */
  predicate Printable(b: Block) {
    && (forall i :: 0 <= i < |b.inputs| && b.inputs[i].FundsWithdrawal? ==> TagText(b.inputs[i].funds.typ).Ok?)
    && (forall c :: 0 <= c < |b.commands| && !IsRedeem(b, c) ==> CommandPrints(b.commands[c]))
  }

  /** ... and what it shows is read as some tag. */
  predicate Readable(b: Block) {
    && (forall i :: 0 <= i < |b.inputs| && b.inputs[i].FundsWithdrawal? ==> Returns(b.inputs[i].funds.typ))
    && (forall c :: 0 <= c < |b.commands| && !IsRedeem(b, c) ==> TagsReturn(b.commands[c]))
  }

  /** `_process_intents`. */
  function Export(b: Block, fmt: Format): Base.Result<(seq<Json>, seq<Json>)> {
    if fmt.Standard? && Free(b) != {} then Err("FundsWithdrawal intent in standard mode")
    else if !Printable(b) then Err("unexpected type tag")
    else Ok((ExportInputs(b, fmt), ExportCommands(b)))
  }

  // ---- import --------------------------------------------------------------

  datatype ImportState = ImportState(block: Block, rm: map<nat, Argument>)

  /** The arguments an intent passes on: amount, type and source of the withdrawal it makes. */
  function WithdrawData(data: map<string, Json>): Base.Result<Withdrawal> {
    var aj :- Need(data, "amount");
    var amount :- NatOf(aj);
    var name :- TextOf(Default(data, "source", Str("SENDER")));
    var source :- SourceOf(name);
    var tj :- Need(data, "type");
    var typ :- TagOf(tj);
    Ok(Withdrawal(amount, typ, source))
  }

  function RedeemData(data: map<string, Json>): Base.Result<Withdrawal> {
    var typ :- TagOrSui(Default(data, "type", Null));
    var aj :- Need(data, "balance");
    var amount :- NatOf(aj);
    Ok(Withdrawal(amount, typ, Sender))
  }

  function TagOrSui(j: Json): Base.Result<TypeTag> {
    if j == Null || j == Str("") then Ok(SUI_TYPE) else TagOf(j)
  }

  function AddInput(st: ImportState, w: Withdrawal): Block {
    Block(st.block.inputs + [FundsWithdrawal(w)], st.block.commands)
  }

  /** The call that `coin_from_address_accumulator` or `create_balance` appends. */
  function RedeemCall(modul: string, typ: TypeTag, input: nat): Command<Argument> {
    MoveCall(FRAMEWORK, modul, "redeem_funds", [typ], [Input(input)])
  }

  function ImportIntent(st: ImportState, idx: nat, intent: Json): Base.Result<ImportState> {
    if !intent.Obj? || "name" !in intent.fields then Err("not an intent")
    else if !Default(intent.fields, "data", Obj(map[])).Obj? then Err("not intent data")
    else if intent.fields["name"] == Str("FundsWithdrawal") then
      var w :- WithdrawData(Default(intent.fields, "data", Obj(map[])).fields);
      Ok(ImportState(AddInput(st, w), st.rm[idx := Input(|st.block.inputs|)]))
    else if intent.fields["name"] == Str("CoinWithBalance") then
      ImportRedeem(st, idx, Default(intent.fields, "data", Obj(map[])).fields)
    else Err("unknown intent")
  }

  function ImportRedeem(st: ImportState, idx: nat, data: map<string, Json>): Base.Result<ImportState> {
    var w :- RedeemData(data);
    Ok(ImportState(
      Block(AddInput(st, w).inputs,
            st.block.commands +
            [RedeemCall(if Default(data, "outputKind", Str("coin")) == Str("balance") then "balance" else "coin",
                        w.typ, |st.block.inputs|)]),
      st.rm[idx := Argument.Result(|st.block.commands|)]))
  }

  /** One turn of the command replay loop of `from_json_data`. */
  function ImportCommand(st: ImportState, idx: nat, j: Json): Base.Result<ImportState> {
    if j.Obj? && "$Intent" in j.fields then ImportIntent(st, idx, j.fields["$Intent"])
    else
      var rewritten :- Rewrite(j, st.rm);
      var cmd :- JsonToCommand(rewritten);
      Ok(ImportState(Block(st.block.inputs, st.block.commands + [cmd]),
                     st.rm[idx := Argument.Result(|st.block.commands|)]))
  }

  type ImportStep = (ImportState, nat, Json) -> Base.Result<ImportState>

  /** A loop that runs `step` on each element in turn, until one raises. */
  function Replay(step: ImportStep, st: ImportState, js: seq<Json>,
                  idx: nat): Base.Result<ImportState>
    decreases |js| - idx
  {
    if idx >= |js| then Ok(st)
    else
      var next :- step(st, idx, js[idx]);
      Replay(step, next, js, idx + 1)
  }

  /** The input and command replay loops of `from_json_data`. */
  function Import(inputs: seq<Json>, commands: seq<Json>): Base.Result<Block> {
    var cas :- ListOf(Arr(inputs), JsonToCallArg);
    var st :- Replay(ImportCommand, ImportState(Block(cas, []), map[]), commands, 0);
    Ok(st.block)
  }
}
