// The JSON interchange form of call arguments and commands, and the rewriting of
// result references on the JSON tree.

module Json {
  import opened Base
  import opened Ptb
  import opened TypeTags

  /** A JSON value. `B64` is a JSON string holding base64 text, given by the bytes it stands for. */
  datatype Json =
    | Null
    | Bool(b: bool)
    | Num(n: int)
    | Str(s: string)
    | B64(data: bytes)
    | Arr(items: seq<Json>)
    | Obj(fields: map<string, Json>)

  // ---- arguments -----------------------------------------------------------

  function ArgToJson(a: Argument): Json {
    match a
    case GasCoin => Obj(map["GasCoin" := Bool(true)])
    case Input(i) => Obj(map["Input" := Num(i)])
    case Result(c) => Obj(map["Result" := Num(c)])
    case NestedResult(c, s) => Obj(map["NestedResult" := Arr([Num(c), Num(s)])])
  }

  /** `int(x)`; a JSON string converts when it is a digit string. */
  function IntOf(j: Json): Base.Result<int> {
    match j
    case Num(n) => Ok(n)
    case Str(s) => if ParseDecimal(s).Some? then Ok(ParseDecimal(s).value) else Err("not an integer")
    case _ => Err("not an integer")
  }

  function NatOf(j: Json): Base.Result<nat> {
    var n :- IntOf(j);
    if n < 0 then Err("negative index") else Ok(n)
  }

  function JsonToArg(j: Json): Base.Result<Argument> {
    if !j.Obj? then Err("unknown argument shape")
    else if "GasCoin" in j.fields then Ok(GasCoin)
    else if "Input" in j.fields then var i :- NatOf(j.fields["Input"]); Ok(Input(i))
    else if "Result" in j.fields then var c :- NatOf(j.fields["Result"]); Ok(Argument.Result(c))
    else if "NestedResult" in j.fields then
      var pair := j.fields["NestedResult"];
      if !pair.Arr? || |pair.items| != 2 then Err("cannot unpack")
      else
        var c :- NatOf(pair.items[0]);
        var s :- NatOf(pair.items[1]);
        Ok(NestedResult(c, s))
    else Err("unknown argument shape")
  }

  // ---- reading fields ------------------------------------------------------

  function Need(m: map<string, Json>, key: string): Base.Result<Json> {
    if key in m then Ok(m[key]) else Err("missing key")
  }

  function Default(m: map<string, Json>, key: string, j: Json): Json {
    if key in m then m[key] else j
  }

  function TextOf(j: Json): Base.Result<string> {
    if j.Str? then Ok(j.s) else Err("not a string")
  }

  function TagOf(j: Json): Base.Result<TypeTag> {
    if j.Str? then ReadTag(j.s) else Err("not a type tag")
  }

  function AddressOf(j: Json): Base.Result<Address> {
    if j.Str? && ParseAddress(j.s).Some? then Ok(ParseAddress(j.s).value) else Err("not an address")
  }

  function BytesOf(j: Json): Base.Result<bytes> {
    if j.B64? then Ok(j.data) else Err("not base64")
  }

  /** `[f(x) for x in j]`, where a single failing element raises. */
  function ListOf<T>(j: Json, f: Json -> Base.Result<T>): Base.Result<seq<T>> {
    if !j.Arr? then Err("not a list")
    else if forall i :: 0 <= i < |j.items| ==> f(j.items[i]).Ok? then
      Ok(seq(|j.items|, i requires 0 <= i < |j.items| => f(j.items[i]).value))
    else Err("bad list element")
  }

  // ---- commands ------------------------------------------------------------

  function Tags(ts: seq<TypeTag>): Json {
    Arr(MapSeq(ts, (t: TypeTag) => Str(TagString(t))))
  }

  function Addresses(ds: seq<Address>): Json {
    Arr(MapSeq(ds, (d: Address) => Str(PrintAddress(d))))
  }

  function Modules(ms: seq<bytes>): Json {
    Arr(MapSeq(ms, (m: bytes) => B64(m)))
  }

  /** `_command_to_json_rewritten`, given the command with its arguments already turned into JSON. */
  function CommandToJson(c: Command<Json>): Json {
    match c
    case MoveCall(p, m, f, ts, args) =>
      Obj(map["MoveCall" := Obj(map["package" := Str(PrintAddress(p)), "module" := Str(m), "function" := Str(f),
                                    "typeArguments" := Tags(ts), "arguments" := Arr(args)])])
    case TransferObjects(objects, recipient) =>
      Obj(map["TransferObjects" := Obj(map["objects" := Arr(objects), "address" := recipient])])
    case SplitCoin(coin, amounts) =>
      Obj(map["SplitCoins" := Obj(map["coin" := coin, "amounts" := Arr(amounts)])])
    case MergeCoins(coin, coins) =>
      Obj(map["MergeCoins" := Obj(map["destination" := coin, "sources" := Arr(coins)])])
    case Publish(ms, ds) =>
      Obj(map["Publish" := Obj(map["modules" := Modules(ms), "dependencies" := Addresses(ds)])])
    case MakeMoveVec(t, elements) =>
      Obj(map["MakeMoveVec" := Obj(map["type" := if t.Some? then Str(TagString(t.value)) else Null,
                                       "elements" := Arr(elements)])])
    case Upgrade(ms, ds, p, ticket) =>
      Obj(map["Upgrade" := Obj(map["modules" := Modules(ms), "dependencies" := Addresses(ds),
                                   "package" := Str(PrintAddress(p)), "ticket" := ticket])])
  }

  function MoveCallOf(v: map<string, Json>): Base.Result<Command<Argument>> {
    var pj :- Need(v, "package");
    var p :- AddressOf(pj);
    var ts :- ListOf(Default(v, "typeArguments", Arr([])), TagOf);
    var args :- ListOf(Default(v, "arguments", Arr([])), JsonToArg);
    var mj :- Need(v, "module");
    var m :- TextOf(mj);
    var fj :- Need(v, "function");
    var f :- TextOf(fj);
    Ok(MoveCall(p, m, f, ts, args))
  }

  function TransferObjectsOf(v: map<string, Json>): Base.Result<Command<Argument>> {
    var oj :- Need(v, "objects");
    var objects :- ListOf(oj, JsonToArg);
    var aj :- Need(v, "address");
    var recipient :- JsonToArg(aj);
    Ok(TransferObjects(objects, recipient))
  }

  function SplitCoinOf(v: map<string, Json>): Base.Result<Command<Argument>> {
    var cj :- Need(v, "coin");
    var coin :- JsonToArg(cj);
    var aj :- Need(v, "amounts");
    var amounts :- ListOf(aj, JsonToArg);
    Ok(SplitCoin(coin, amounts))
  }

  function MergeCoinsOf(v: map<string, Json>): Base.Result<Command<Argument>> {
    var dj :- Need(v, "destination");
    var dest :- JsonToArg(dj);
    var sj :- Need(v, "sources");
    var sources :- ListOf(sj, JsonToArg);
    Ok(MergeCoins(dest, sources))
  }

  function PublishOf(v: map<string, Json>): Base.Result<Command<Argument>> {
    var mj :- Need(v, "modules");
    var ms :- ListOf(mj, BytesOf);
    var dj :- Need(v, "dependencies");
    var ds :- ListOf(dj, AddressOf);
    Ok(Publish(ms, ds))
  }

  function MakeMoveVecOf(v: map<string, Json>): Base.Result<Command<Argument>> {
    var tj := Default(v, "type", Null);
    var t :- if tj == Null || tj == Str("") then Ok(None) else (var t :- TagOf(tj); Ok(Some(t)));
    var elements :- ListOf(Default(v, "elements", Arr([])), JsonToArg);
    Ok(MakeMoveVec(t, elements))
  }

  function UpgradeOf(v: map<string, Json>): Base.Result<Command<Argument>> {
    var mj :- Need(v, "modules");
    var ms :- ListOf(mj, BytesOf);
    var dj :- Need(v, "dependencies");
    var ds :- ListOf(dj, AddressOf);
    var pj :- Need(v, "package");
    var p :- AddressOf(pj);
    var tj :- Need(v, "ticket");
    var ticket :- JsonToArg(tj);
    Ok(Upgrade(ms, ds, p, ticket))
  }

  /** `_json_to_command`. */
  function JsonToCommand(j: Json): Base.Result<Command<Argument>> {
    if !j.Obj? || |j.fields| != 1 then Err("expected single-key command")
    else if "MoveCall" in j.fields && j.fields["MoveCall"].Obj? then MoveCallOf(j.fields["MoveCall"].fields)
    else if "TransferObjects" in j.fields && j.fields["TransferObjects"].Obj? then
      TransferObjectsOf(j.fields["TransferObjects"].fields)
    else if "SplitCoins" in j.fields && j.fields["SplitCoins"].Obj? then SplitCoinOf(j.fields["SplitCoins"].fields)
    else if "MergeCoins" in j.fields && j.fields["MergeCoins"].Obj? then MergeCoinsOf(j.fields["MergeCoins"].fields)
    else if "Publish" in j.fields && j.fields["Publish"].Obj? then PublishOf(j.fields["Publish"].fields)
    else if "MakeMoveVec" in j.fields && j.fields["MakeMoveVec"].Obj? then
      MakeMoveVecOf(j.fields["MakeMoveVec"].fields)
    else if "Upgrade" in j.fields && j.fields["Upgrade"].Obj? then UpgradeOf(j.fields["Upgrade"].fields)
    else Err("unknown command variant")
  }

  // ---- rewriting result references -----------------------------------------

  /** `_rewrite_result_refs`: walks any JSON tree; `rm` maps a command index to the argument it became. */
  function Rewrite(j: Json, rm: map<nat, Argument>): Base.Result<Json>
    decreases j, 1
  {
    match j
    case Obj(m) =>
      if |m| == 1 && "Result" in m then
        var c :- IntOf(m["Result"]);
        if c >= 0 && c in rm then Ok(ArgToJson(rm[c])) else RewriteFields(j, rm)
      else if |m| == 1 && "NestedResult" in m then
        if !m["NestedResult"].Arr? || |m["NestedResult"].items| != 2 then Err("cannot unpack")
        else
          var c :- IntOf(m["NestedResult"].items[0]);
          if c >= 0 && c in rm && rm[c].Result? then
            var s :- NatOf(m["NestedResult"].items[1]);
            Ok(ArgToJson(NestedResult(rm[c].cmd, s)))
          else RewriteFields(j, rm)
      else RewriteFields(j, rm)
    case Arr(items) =>
      if forall i :: 0 <= i < |items| ==> Rewrite(items[i], rm).Ok? then
        Ok(Arr(seq(|items|, i requires 0 <= i < |items| => Rewrite(items[i], rm).value)))
      else Err("bad reference")
    case _ => Ok(j)
  }

  function RewriteFields(j: Json, rm: map<nat, Argument>): Base.Result<Json>
    requires j.Obj?
    decreases j, 0
  {
    if forall k :: k in j.fields ==> Rewrite(j.fields[k], rm).Ok? then
      Ok(Obj(map k | k in j.fields :: Rewrite(j.fields[k], rm).value))
    else Err("bad reference")
  }

  /** What the rewriting means for a parsed argument: one simultaneous substitution. */
  function Substitute(a: Argument, rm: map<nat, Argument>): Argument {
    match a
    case Result(c) => if c in rm then rm[c] else a
    case NestedResult(c, s) => if c in rm && rm[c].Result? then NestedResult(rm[c].cmd, s) else a
    case _ => a
  }

  // ---- the document schema, for the commands -------------------------------

  predicate IsIndex(j: Json) { j.Num? && j.n >= 0 }

  predicate IsText(j: Json) { j.Str? || j.B64? }

  predicate SchemaArgument(j: Json) {
    && j.Obj? && |j.fields| == 1
    && (|| ("GasCoin" in j.fields && j.fields["GasCoin"] == Bool(true))
        || ("Input" in j.fields && IsIndex(j.fields["Input"]))
        || ("Result" in j.fields && IsIndex(j.fields["Result"]))
        || (&& "NestedResult" in j.fields && j.fields["NestedResult"].Arr?
            && |j.fields["NestedResult"].items| == 2
            && IsIndex(j.fields["NestedResult"].items[0]) && IsIndex(j.fields["NestedResult"].items[1])))
  }

  predicate ArrayOf(j: Json, p: Json -> bool) {
    j.Arr? && forall i :: 0 <= i < |j.items| ==> p(j.items[i])
  }

  predicate SchemaFields(name: string, v: map<string, Json>) {
    match name
    case "MoveCall" =>
      && v.Keys == {"package", "module", "function", "typeArguments", "arguments"}
      && IsText(v["package"]) && IsText(v["module"]) && IsText(v["function"])
      && ArrayOf(v["typeArguments"], IsText) && ArrayOf(v["arguments"], SchemaArgument)
    case "TransferObjects" =>
      && v.Keys == {"objects", "address"}
      && ArrayOf(v["objects"], SchemaArgument) && SchemaArgument(v["address"])
    case "SplitCoins" =>
      && v.Keys == {"coin", "amounts"}
      && SchemaArgument(v["coin"]) && ArrayOf(v["amounts"], SchemaArgument)
    case "MergeCoins" =>
      && v.Keys == {"destination", "sources"}
      && SchemaArgument(v["destination"]) && ArrayOf(v["sources"], SchemaArgument)
    case "Publish" =>
      && v.Keys == {"modules", "dependencies"}
      && ArrayOf(v["modules"], IsText) && ArrayOf(v["dependencies"], IsText)
    case "MakeMoveVec" =>
      && {"elements"} <= v.Keys <= {"type", "elements"}
      && ("type" in v ==> v["type"].Null? || IsText(v["type"])) && ArrayOf(v["elements"], SchemaArgument)
    case "Upgrade" =>
      && v.Keys == {"modules", "dependencies", "package", "ticket"}
      && ArrayOf(v["modules"], IsText) && ArrayOf(v["dependencies"], IsText)
      && IsText(v["package"]) && SchemaArgument(v["ticket"])
    case _ => false
  }

  /** The schema of one command other than an intent: a single known key, no extra properties. */
  predicate SchemaCommand(j: Json) {
    && j.Obj? && |j.fields| == 1
    && exists name :: name in j.fields && j.fields[name].Obj? && SchemaFields(name, j.fields[name].fields)
  }

  // ---- rewriting then parsing is parsing then substituting -----------------

  lemma ArgumentRoundTrip(a: Argument)
    ensures JsonToArg(ArgToJson(a)) == Ok(a)
    ensures SchemaArgument(ArgToJson(a))
  {
  }

  lemma SingleKey<V>(m: map<string, V>, k: string)
    requires |m| == 1 && k in m
    ensures m.Keys == {k}
  {
    assert |m.Keys - {k}| == 0;
  }

  /** Text, and lists of text, hold no references. */
  lemma RewriteTexts(j: Json, rm: map<nat, Argument>)
    requires IsText(j) || j.Null? || ArrayOf(j, IsText)
    ensures Rewrite(j, rm) == Ok(j)
  {
    if j.Arr? {
      assert forall i :: 0 <= i < |j.items| ==> Rewrite(j.items[i], rm) == Ok(j.items[i]);
      assert Rewrite(j, rm).value.items == j.items;
    }
  }

  lemma RewriteOneField(m: map<string, Json>, k: string, rm: map<nat, Argument>)
    requires m.Keys == {k} && Rewrite(m[k], rm).Ok?
    ensures RewriteFields(Obj(m), rm) == Ok(Obj(map[k := Rewrite(m[k], rm).value]))
  {
    assert RewriteFields(Obj(m), rm).value.fields == map[k := Rewrite(m[k], rm).value];
  }

  /** The schema admits exactly the printed arguments. */
  lemma SchemaArgumentPrinted(j: Json)
    requires SchemaArgument(j)
    ensures JsonToArg(j).Ok? && ArgToJson(JsonToArg(j).value) == j
  {
    var m := j.fields;
    if "GasCoin" in m { SingleKey(m, "GasCoin"); assert m == map["GasCoin" := Bool(true)]; }
    else if "Input" in m { SingleKey(m, "Input"); assert m == map["Input" := m["Input"]]; }
    else if "Result" in m { SingleKey(m, "Result"); assert m == map["Result" := m["Result"]]; }
    else {
      SingleKey(m, "NestedResult");
      var pair := m["NestedResult"];
      assert pair.items == [pair.items[0], pair.items[1]];
      assert m == map["NestedResult" := pair];
    }
  }

  lemma RewritePair(c: nat, s: nat, rm: map<nat, Argument>)
    ensures Rewrite(Arr([Num(c), Num(s)]), rm) == Ok(Arr([Num(c), Num(s)]))
  {
    var items := [Num(c), Num(s)];
    assert forall i :: 0 <= i < |items| ==> Rewrite(items[i], rm) == Ok(items[i]);
    assert Rewrite(Arr(items), rm).value.items == items;
  }

  lemma RewriteIndex(key: string, n: int, rm: map<nat, Argument>)
    requires key in {"Input", "Result"}
    ensures RewriteFields(Obj(map[key := Num(n)]), rm) == Ok(Obj(map[key := Num(n)]))
  {
    RewriteOneField(map[key := Num(n)], key, rm);
  }

  lemma RewriteNested(c: nat, s: nat, rm: map<nat, Argument>)
    ensures Rewrite(ArgToJson(NestedResult(c, s)), rm) == Ok(ArgToJson(Substitute(NestedResult(c, s), rm)))
  {
    RewritePair(c, s, rm);
    RewriteOneField(ArgToJson(NestedResult(c, s)).fields, "NestedResult", rm);
  }

  lemma RewritePrinted(a: Argument, rm: map<nat, Argument>)
    ensures Rewrite(ArgToJson(a), rm) == Ok(ArgToJson(Substitute(a, rm)))
  {
    match a
    case GasCoin => RewriteOneField(ArgToJson(a).fields, "GasCoin", rm);
    case Input(i) => RewriteIndex("Input", i, rm);
    case Result(c) => RewriteIndex("Result", c, rm);
    case NestedResult(c, s) => RewriteNested(c, s, rm);
  }

  lemma RewriteArgument(j: Json, rm: map<nat, Argument>)
    requires SchemaArgument(j)
    ensures Rewrite(j, rm).Ok? && JsonToArg(j).Ok?
    ensures JsonToArg(Rewrite(j, rm).value) == Ok(Substitute(JsonToArg(j).value, rm))
  {
    SchemaArgumentPrinted(j);
    var a := JsonToArg(j).value;
    RewritePrinted(a, rm);
    ArgumentRoundTrip(Substitute(a, rm));
  }

  lemma RewriteArguments(j: Json, rm: map<nat, Argument>)
    requires ArrayOf(j, SchemaArgument)
    ensures Rewrite(j, rm).Ok? && ListOf(j, JsonToArg).Ok?
    ensures ListOf(Rewrite(j, rm).value, JsonToArg)
         == Ok(MapSeq(ListOf(j, JsonToArg).value, a => Substitute(a, rm)))
  {
    forall i | 0 <= i < |j.items|
      ensures Rewrite(j.items[i], rm).Ok? && JsonToArg(j.items[i]).Ok?
      ensures JsonToArg(Rewrite(j.items[i], rm).value) == Ok(Substitute(JsonToArg(j.items[i]).value, rm))
    {
      RewriteArgument(j.items[i], rm);
    }
    var w := Rewrite(j, rm).value;
    assert forall i :: 0 <= i < |w.items| ==> JsonToArg(w.items[i]).Ok?;
    assert ListOf(w, JsonToArg).value == MapSeq(ListOf(j, JsonToArg).value, a => Substitute(a, rm));
  }

  function SubstituteAll(r: Base.Result<Command<Argument>>, rm: map<nat, Argument>): Base.Result<Command<Argument>> {
    match r
    case Ok(c) => Ok(c.Map(a => Substitute(a, rm)))
    case Err(e) => Err(e)
  }

  lemma RewriteMoveCall(v: map<string, Json>, rm: map<nat, Argument>)
    requires SchemaFields("MoveCall", v)
    ensures RewriteFields(Obj(v), rm).Ok?
    ensures MoveCallOf(RewriteFields(Obj(v), rm).value.fields) == SubstituteAll(MoveCallOf(v), rm)
  {
    RewriteTexts(v["package"], rm);
    RewriteTexts(v["module"], rm);
    RewriteTexts(v["function"], rm);
    RewriteTexts(v["typeArguments"], rm);
    RewriteArguments(v["arguments"], rm);
  }

  lemma RewriteTransferObjects(v: map<string, Json>, rm: map<nat, Argument>)
    requires SchemaFields("TransferObjects", v)
    ensures RewriteFields(Obj(v), rm).Ok?
    ensures TransferObjectsOf(RewriteFields(Obj(v), rm).value.fields) == SubstituteAll(TransferObjectsOf(v), rm)
  {
    RewriteArguments(v["objects"], rm);
    RewriteArgument(v["address"], rm);
  }

  lemma RewriteSplitCoin(v: map<string, Json>, rm: map<nat, Argument>)
    requires SchemaFields("SplitCoins", v)
    ensures RewriteFields(Obj(v), rm).Ok?
    ensures SplitCoinOf(RewriteFields(Obj(v), rm).value.fields) == SubstituteAll(SplitCoinOf(v), rm)
  {
    RewriteArgument(v["coin"], rm);
    RewriteArguments(v["amounts"], rm);
  }

  lemma RewriteMergeCoins(v: map<string, Json>, rm: map<nat, Argument>)
    requires SchemaFields("MergeCoins", v)
    ensures RewriteFields(Obj(v), rm).Ok?
    ensures MergeCoinsOf(RewriteFields(Obj(v), rm).value.fields) == SubstituteAll(MergeCoinsOf(v), rm)
  {
    RewriteArgument(v["destination"], rm);
    RewriteArguments(v["sources"], rm);
  }

  lemma RewritePublish(v: map<string, Json>, rm: map<nat, Argument>)
    requires SchemaFields("Publish", v)
    ensures RewriteFields(Obj(v), rm).Ok?
    ensures PublishOf(RewriteFields(Obj(v), rm).value.fields) == SubstituteAll(PublishOf(v), rm)
  {
    RewriteTexts(v["modules"], rm);
    RewriteTexts(v["dependencies"], rm);
  }

  lemma RewriteMakeMoveVec(v: map<string, Json>, rm: map<nat, Argument>)
    requires SchemaFields("MakeMoveVec", v)
    ensures RewriteFields(Obj(v), rm).Ok?
    ensures MakeMoveVecOf(RewriteFields(Obj(v), rm).value.fields) == SubstituteAll(MakeMoveVecOf(v), rm)
  {
    if "type" in v { RewriteTexts(v["type"], rm); }
    RewriteArguments(v["elements"], rm);
  }

  lemma RewriteUpgrade(v: map<string, Json>, rm: map<nat, Argument>)
    requires SchemaFields("Upgrade", v)
    ensures RewriteFields(Obj(v), rm).Ok?
    ensures UpgradeOf(RewriteFields(Obj(v), rm).value.fields) == SubstituteAll(UpgradeOf(v), rm)
  {
    RewriteTexts(v["modules"], rm);
    RewriteTexts(v["dependencies"], rm);
    RewriteTexts(v["package"], rm);
    RewriteArgument(v["ticket"], rm);
    UpgradeTicketOnly(v, RewriteFields(Obj(v), rm).value.fields, rm);
  }

  lemma UpgradeTicketOnly(v: map<string, Json>, w: map<string, Json>, rm: map<nat, Argument>)
    requires v.Keys == w.Keys && v.Keys == {"modules", "dependencies", "package", "ticket"}
    requires w["modules"] == v["modules"] && w["dependencies"] == v["dependencies"] && w["package"] == v["package"]
    requires JsonToArg(v["ticket"]).Ok?
    requires JsonToArg(w["ticket"]) == Ok(Substitute(JsonToArg(v["ticket"]).value, rm))
    ensures UpgradeOf(w) == SubstituteAll(UpgradeOf(v), rm)
  {
  }

  /** The branch of `_json_to_command` that a command name selects. */
  function ParseNamed(name: string, v: map<string, Json>): Base.Result<Command<Argument>> {
    match name
    case "MoveCall" => MoveCallOf(v)
    case "TransferObjects" => TransferObjectsOf(v)
    case "SplitCoins" => SplitCoinOf(v)
    case "MergeCoins" => MergeCoinsOf(v)
    case "Publish" => PublishOf(v)
    case "MakeMoveVec" => MakeMoveVecOf(v)
    case "Upgrade" => UpgradeOf(v)
    case _ => Err("unknown command variant")
  }

  lemma ParseSelects(name: string, v: map<string, Json>)
    ensures JsonToCommand(Obj(map[name := Obj(v)])) == ParseNamed(name, v)
  {
    assert |map[name := Obj(v)]| == 1;
  }

  lemma NotAReference(name: string, v: map<string, Json>)
    requires SchemaFields(name, v)
    ensures "Result" !in v && "NestedResult" !in v
    ensures name != "Result" && name != "NestedResult"
  {
  }

  lemma RewriteNamed(name: string, v: map<string, Json>, rm: map<nat, Argument>)
    requires SchemaFields(name, v)
    ensures RewriteFields(Obj(v), rm).Ok?
    ensures ParseNamed(name, RewriteFields(Obj(v), rm).value.fields) == SubstituteAll(ParseNamed(name, v), rm)
  {
    match name {
      case "MoveCall" => RewriteMoveCall(v, rm);
      case "TransferObjects" => RewriteTransferObjects(v, rm);
      case "SplitCoins" => RewriteSplitCoin(v, rm);
      case "MergeCoins" => RewriteMergeCoins(v, rm);
      case "Publish" => RewritePublish(v, rm);
      case "MakeMoveVec" => RewriteMakeMoveVec(v, rm);
      case "Upgrade" => RewriteUpgrade(v, rm);
    }
  }

  lemma RewriteSelected(name: string, v: map<string, Json>, rm: map<nat, Argument>)
    requires "Result" !in v && "NestedResult" !in v && name != "Result" && name != "NestedResult"
    requires RewriteFields(Obj(v), rm).Ok?
    ensures Rewrite(Obj(map[name := Obj(v)]), rm)
         == Ok(Obj(map[name := RewriteFields(Obj(v), rm).value]))
  {
    assert Rewrite(Obj(v), rm) == RewriteFields(Obj(v), rm);
    RewriteOneField(map[name := Obj(v)], name, rm);
  }

  lemma RewriteOneCommand(name: string, v: map<string, Json>, rm: map<nat, Argument>, j: Json)
    requires SchemaFields(name, v) && j == Obj(map[name := Obj(v)])
    ensures Rewrite(j, rm).Ok?
    ensures JsonToCommand(Rewrite(j, rm).value) == SubstituteAll(JsonToCommand(j), rm)
  {
    NotAReference(name, v);
    RewriteNamed(name, v, rm);
    RewriteSelected(name, v, rm);
    ParseSelects(name, v);
    ParseSelects(name, RewriteFields(Obj(v), rm).value.fields);
  }

  /** For every command of the schema and every result map, rewriting the tree and parsing it is
      parsing it and substituting, simultaneously and at argument positions only. */
  lemma RewriteThenParse(j: Json, rm: map<nat, Argument>)
    requires SchemaCommand(j)
    ensures Rewrite(j, rm).Ok?
    ensures JsonToCommand(Rewrite(j, rm).value) == SubstituteAll(JsonToCommand(j), rm)
  {
    var name :| name in j.fields && j.fields[name].Obj? && SchemaFields(name, j.fields[name].fields);
    var v := j.fields[name].fields;
    assert j.fields == map[name := Obj(v)] by { SingleKey(j.fields, name); }
    RewriteOneCommand(name, v, rm, j);
  }

  // ---- printing then parsing a command -------------------------------------

  lemma ListOfPrinted(args: seq<Argument>)
    ensures ListOf(Arr(MapSeq(args, ArgToJson)), JsonToArg) == Ok(args)
    ensures ArrayOf(Arr(MapSeq(args, ArgToJson)), SchemaArgument)
  {
    forall i | 0 <= i < |args| ensures JsonToArg(MapSeq(args, ArgToJson)[i]) == Ok(args[i]) {
      ArgumentRoundTrip(args[i]);
    }
    assert ListOf(Arr(MapSeq(args, ArgToJson)), JsonToArg).value == args;
  }

  /** Every type tag of the command comes back as some tag. */
  predicate TagsReturn<A>(c: Command<A>) {
    forall t :: t in TagsOf(c) ==> Returns(t)
  }

  /** The command with its type tags as they come back. */
  function Retag<A>(c: Command<A>): Command<A> {
    match c
    case MoveCall(p, m, f, ts, args) => MoveCall(p, m, f, MapSeq(ts, (t: TypeTag) => Back(t)), args)
    case MakeMoveVec(Some(t), elements) => MakeMoveVec(Some(Back(t)), elements)
    case _ => c
  }

  lemma TagsRoundTrip(ts: seq<TypeTag>)
    ensures ListOf(Tags(ts), TagOf).Ok? <==> forall t :: t in ts ==> Returns(t)
    ensures ListOf(Tags(ts), TagOf).Ok? ==> ListOf(Tags(ts), TagOf).value == MapSeq(ts, (t: TypeTag) => Back(t))
  {
    forall i | 0 <= i < |ts|
      ensures TagOf(Tags(ts).items[i]).Ok? <==> Returns(ts[i])
      ensures Returns(ts[i]) ==> TagOf(Tags(ts).items[i]) == Ok(Back(ts[i]))
    {
      StringRead(ts[i]);
    }
    var r := ListOf(Tags(ts), TagOf);
    if r.Ok? {
      forall t | t in ts ensures Returns(t) {
        var i :| 0 <= i < |ts| && ts[i] == t;
        assert TagOf(Tags(ts).items[i]).Ok?;
      }
      assert r.value == MapSeq(ts, (t: TypeTag) => Back(t));
    }
  }

  lemma TextsRoundTrip(ds: seq<Address>, ms: seq<bytes>)
    ensures ListOf(Addresses(ds), AddressOf) == Ok(ds)
    ensures ListOf(Modules(ms), BytesOf) == Ok(ms)
  {
    forall i | 0 <= i < |ds| ensures AddressOf(Addresses(ds).items[i]) == Ok(ds[i]) { ParsePrintAddress(ds[i]); }
    assert ListOf(Addresses(ds), AddressOf).value == ds;
    assert ListOf(Modules(ms), BytesOf).value == ms;
  }

  /** `r` is the command read back: it fails exactly if a type tag does not come back. */
  predicate ReadBack(r: Base.Result<Command<Argument>>, c: Command<Argument>) {
    (r.Ok? <==> TagsReturn(c)) && (r.Ok? ==> r.value == Retag(c))
  }

  lemma MoveCallRoundTrip(c: Command<Argument>)
    requires c.MoveCall?
    ensures var v := CommandToJson(c.Map(ArgToJson)).fields["MoveCall"].fields;
            SchemaFields("MoveCall", v) && ReadBack(MoveCallOf(v), c)
  {
    ParsePrintAddress(c.package);
    TagsRoundTrip(c.typeArgs);
    ListOfPrinted(c.args);
    var v := CommandToJson(c.Map(ArgToJson)).fields["MoveCall"].fields;
    assert v["package"] == Str(PrintAddress(c.package)) && v["module"] == Str(c.modul);
    assert v["function"] == Str(c.function_) && v["typeArguments"] == Tags(c.typeArgs);
    assert v["arguments"] == Arr(MapSeq(c.args, ArgToJson));
  }

  lemma UpgradeRoundTrip(c: Command<Argument>)
    requires c.Upgrade?
    ensures var v := CommandToJson(c.Map(ArgToJson)).fields["Upgrade"].fields;
            SchemaFields("Upgrade", v) && UpgradeOf(v) == Ok(c)
  {
    ParsePrintAddress(c.upgraded);
    TextsRoundTrip(c.deps, c.modules);
    ArgumentRoundTrip(c.ticket);
    var v := CommandToJson(c.Map(ArgToJson)).fields["Upgrade"].fields;
    assert v["modules"] == Modules(c.modules) && v["dependencies"] == Addresses(c.deps);
    assert v["package"] == Str(PrintAddress(c.upgraded)) && v["ticket"] == ArgToJson(c.ticket);
  }

  lemma TransferObjectsRoundTrip(objects: seq<Argument>, recipient: Argument, v: map<string, Json>)
    requires v == map["objects" := Arr(MapSeq(objects, ArgToJson)), "address" := ArgToJson(recipient)]
    ensures SchemaFields("TransferObjects", v) && TransferObjectsOf(v) == Ok(TransferObjects(objects, recipient))
  {
    ListOfPrinted(objects);
    ArgumentRoundTrip(recipient);
  }

  lemma SplitCoinRoundTrip(coin: Argument, amounts: seq<Argument>, v: map<string, Json>)
    requires v == map["coin" := ArgToJson(coin), "amounts" := Arr(MapSeq(amounts, ArgToJson))]
    ensures SchemaFields("SplitCoins", v) && SplitCoinOf(v) == Ok(SplitCoin(coin, amounts))
  {
    ListOfPrinted(amounts);
    ArgumentRoundTrip(coin);
  }

  lemma MergeCoinsRoundTrip(coin: Argument, coins: seq<Argument>, v: map<string, Json>)
    requires v == map["destination" := ArgToJson(coin), "sources" := Arr(MapSeq(coins, ArgToJson))]
    ensures SchemaFields("MergeCoins", v) && MergeCoinsOf(v) == Ok(MergeCoins(coin, coins))
  {
    ListOfPrinted(coins);
    ArgumentRoundTrip(coin);
  }

  lemma PublishRoundTrip(ms: seq<bytes>, ds: seq<Address>, v: map<string, Json>)
    requires v == map["modules" := Modules(ms), "dependencies" := Addresses(ds)]
    ensures SchemaFields("Publish", v) && PublishOf(v) == Ok(Publish(ms, ds))
  {
    TextsRoundTrip(ds, ms);
  }

  lemma MakeMoveVecRoundTrip(t: Option<TypeTag>, elements: seq<Argument>, v: map<string, Json>)
    requires v == map["type" := if t.Some? then Str(TagString(t.value)) else Null,
                      "elements" := Arr(MapSeq(elements, ArgToJson))]
    ensures SchemaFields("MakeMoveVec", v) && ReadBack(MakeMoveVecOf(v), MakeMoveVec(t, elements))
  {
    ListOfPrinted(elements);
    if t.Some? { StringRead(t.value); }
  }

  lemma OtherRoundTrip(c: Command<Argument>, name: string, v: map<string, Json>)
    requires !c.MoveCall? && !c.Upgrade?
    requires CommandToJson(c.Map(ArgToJson)) == Obj(map[name := Obj(v)])
    ensures SchemaFields(name, v) && ReadBack(ParseNamed(name, v), c)
  {
    assert CommandToJson(c.Map(ArgToJson)).fields[name] == Obj(v);
    match c
    case TransferObjects(objects, recipient) => TransferObjectsRoundTrip(objects, recipient, v);
    case SplitCoin(coin, amounts) => SplitCoinRoundTrip(coin, amounts, v);
    case MergeCoins(coin, coins) => MergeCoinsRoundTrip(coin, coins, v);
    case Publish(ms, ds) => PublishRoundTrip(ms, ds, v);
    case MakeMoveVec(t, elements) => MakeMoveVecRoundTrip(t, elements, v);
  }

  function CommandName(c: Command<Json>): string {
    match c
    case MoveCall(_, _, _, _, _) => "MoveCall"
    case TransferObjects(_, _) => "TransferObjects"
    case SplitCoin(_, _) => "SplitCoins"
    case MergeCoins(_, _) => "MergeCoins"
    case Publish(_, _) => "Publish"
    case MakeMoveVec(_, _) => "MakeMoveVec"
    case Upgrade(_, _, _, _) => "Upgrade"
  }

  lemma PrintedShape(c: Command<Json>) returns (v: map<string, Json>)
    ensures CommandToJson(c) == Obj(map[CommandName(c) := Obj(v)])
  {
    v := CommandToJson(c).fields[CommandName(c)].fields;
  }

  /** A printed command obeys the schema and parses back to itself, but for its type tags: it fails to
      parse exactly if one of these is not read, and otherwise has them as they are read. */
  lemma CommandRoundTrip(c: Command<Argument>)
    ensures SchemaCommand(CommandToJson(c.Map(ArgToJson)))
    ensures ReadBack(JsonToCommand(CommandToJson(c.Map(ArgToJson))), c)
  {
    var j := CommandToJson(c.Map(ArgToJson));
    var name := CommandName(c.Map(ArgToJson));
    var v := PrintedShape(c.Map(ArgToJson));
    if c.MoveCall? { MoveCallRoundTrip(c); assert j.fields["MoveCall"] == Obj(v); }
    else if c.Upgrade? { UpgradeRoundTrip(c); assert j.fields["Upgrade"] == Obj(v); }
    else { OtherRoundTrip(c, name, v); }
    assert name in j.fields && j.fields[name] == Obj(v) && |j.fields| == 1;
    ParseSelects(name, v);
  }

  /** The two together: what the import makes of an exported command. */
  lemma RewritePrintedCommand(c: Command<Argument>, rm: map<nat, Argument>)
    ensures Rewrite(CommandToJson(c.Map(ArgToJson)), rm).Ok?
    ensures var r := JsonToCommand(Rewrite(CommandToJson(c.Map(ArgToJson)), rm).value);
      (r.Ok? <==> TagsReturn(c)) && (r.Ok? ==> r.value == Retag(c).Map(a => Substitute(a, rm)))
  {
    CommandRoundTrip(c);
    RewriteThenParse(CommandToJson(c.Map(ArgToJson)), rm);
  }
}
