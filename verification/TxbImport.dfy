// The input and command replay loops of `from_json_data`, into a new builder.

module TxbImport {
  import opened Base
  import opened Ptb
  import opened Json
  import opened TxbJson
  import opened BuilderSpec
  import opened Builder

  /** The dictionary key that the import makes for an input. */
  function KeyFor(ca: CallArg): BuilderArg {
    match ca
    case Pure(data) => KPure(data)
    case Object(o) => KObject(o.Id())
    case UnresolvedObject(u) => KUnresolved(u.id)
    case FundsWithdrawal(w) => KWithdrawal(w)
  }

  /** A builder that an import fills: its registry stays empty, and its keys are made from the inputs. */
  ghost predicate Filled(s: State) {
    s.compress && s.registry == map[] && forall i :: 0 <= i < |s.inputs| ==> s.inputs[i].key == KeyFor(s.inputs[i].arg)
  }

  /** The input loop. */
  method ReplayInputs(b: ProgrammableTransactionBuilder, js: seq<Json>) returns (ok: bool)
    requires b.Valid() && Filled(b.View()) && b.inputs == []
    modifies b
    ensures b.Valid() && Filled(b.View()) && b.commands == old(b.commands)
    ensures ok <==> ListOf(Arr(js), JsonToCallArg).Ok?
    ensures ok ==> CallArgs(b.View()) == ListOf(Arr(js), JsonToCallArg).value
  {
    for i := 0 to |js|
      invariant b.Valid() && Filled(b.View()) && b.commands == old(b.commands) && |b.inputs| == i
      invariant forall k :: 0 <= k < i ==> JsonToCallArg(js[k]) == Ok(b.inputs[k].arg)
    {
      var ca := JsonToCallArg(js[i]);
      if ca.Err? { return false; }
      b.inputs := b.inputs + [Entry(KeyFor(ca.value), ca.value)];
    }
    assert CallArgs(b.View()) == ListOf(Arr(js), JsonToCallArg).value;
    return true;
  }

  /** An intent, replayed through the builder's own methods. */
  method ReplayIntent(b: ProgrammableTransactionBuilder, intent: Json, ghost st: ImportState, ghost idx: nat)
    returns (r: Base.Result<Argument>)
    requires b.Valid() && Filled(b.View()) && st.block == b.Finish()
    modifies b
    ensures b.Valid() && Filled(b.View())
    ensures r.Ok? <==> ImportIntent(st, idx, intent).Ok?
    ensures r.Ok? ==> ImportIntent(st, idx, intent).value == ImportState(b.Finish(), st.rm[idx := r.value])
  {
    if !intent.Obj? || "name" !in intent.fields { return Err("not an intent"); }
    var data := Default(intent.fields, "data", Obj(map[]));
    if !data.Obj? { return Err("not intent data"); }
    if intent.fields["name"] == Str("FundsWithdrawal") {
      var w := WithdrawData(data.fields);
      if w.Err? { return Err(w.why); }
      r := b.InputObjFromWithdrawal(w.value);
      assert b.Finish() == AddInput(st, w.value);
    } else if intent.fields["name"] == Str("CoinWithBalance") {
      r := ReplayRedeem(b, data.fields, st, idx);
    } else {
      return Err("unknown intent");
    }
  }

  /** `create_balance` or `coin_from_address_accumulator`: one withdrawal and the call redeeming it. */
  method ReplayRedeem(b: ProgrammableTransactionBuilder, data: map<string, Json>, ghost st: ImportState, ghost idx: nat)
    returns (r: Base.Result<Argument>)
    requires b.Valid() && Filled(b.View()) && st.block == b.Finish()
    modifies b
    ensures b.Valid() && Filled(b.View())
    ensures r.Ok? <==> ImportRedeem(st, idx, data).Ok?
    ensures r.Ok? ==> ImportRedeem(st, idx, data).value == ImportState(b.Finish(), st.rm[idx := r.value])
  {
    var w := RedeemData(data);
    if w.Err? { return Err(w.why); }
    var modul := if Default(data, "outputKind", Str("coin")) == Str("balance") then "balance" else "coin";
    var input := b.InputObjFromWithdrawal(w.value);
    var result := b.AddCommand(RedeemCall(modul, w.value.typ, input.value.index), 1);
    assert CallArgs(b.View()) == AddInput(st, w.value).inputs;
    return Ok(result[0]);
  }

  /** One turn of the command loop. */
  method ReplayCommand(b: ProgrammableTransactionBuilder, j: Json, rm: map<nat, Argument>, ghost st: ImportState,
                       ghost idx: nat)
    returns (r: Base.Result<Argument>)
    requires b.Valid() && Filled(b.View()) && st == ImportState(b.Finish(), rm)
    modifies b
    ensures b.Valid() && Filled(b.View())
    ensures r.Ok? <==> ImportCommand(st, idx, j).Ok?
    ensures r.Ok? ==> ImportCommand(st, idx, j).value == ImportState(b.Finish(), rm[idx := r.value])
  {
    if j.Obj? && "$Intent" in j.fields {
      r := ReplayIntent(b, j.fields["$Intent"], st, idx);
    } else {
      var rewritten := Rewrite(j, rm);
      if rewritten.Err? { return Err(rewritten.why); }
      var cmd := JsonToCommand(rewritten.value);
      if cmd.Err? { return Err(cmd.why); }
      b.commands := b.commands + [cmd.value];
      return Ok(Argument.Result(|b.commands| - 1));
    }
  }

  /** The command loop, with its growing result map. */
  method ReplayCommands(b: ProgrammableTransactionBuilder, js: seq<Json>) returns (ok: bool)
    requires b.Valid() && Filled(b.View())
    modifies b
    ensures b.Valid() && Filled(b.View())
    ensures ok <==> Replay(ImportCommand, ImportState(old(b.Finish()), map[]), js, 0).Ok?
    ensures ok ==> Replay(ImportCommand, ImportState(old(b.Finish()), map[]), js, 0).value.block == b.Finish()
  {
    var rm: map<nat, Argument> := map[];
    for i := 0 to |js|
      invariant b.Valid() && Filled(b.View())
      invariant Replay(ImportCommand, ImportState(old(b.Finish()), map[]), js, 0)
             == Replay(ImportCommand, ImportState(b.Finish(), rm), js, i)
    {
      ghost var st := ImportState(b.Finish(), rm);
      ghost var step := ImportCommand;
      var r := ReplayCommand(b, js[i], rm, st, i);
      assert Replay(step, st, js, i) ==
        (match step(st, i, js[i]) case Ok(next) => Replay(step, next, js, i + 1) case Err(e) => Err(e));
      if r.Err? { return false; }
      rm := rm[i := r.value];
    }
    return true;
  }

  /** `from_json_data`, from the parsed lists: the new builder holds exactly the imported block. */
  method FromJson(inputs: seq<Json>, commands: seq<Json>) returns (b: ProgrammableTransactionBuilder, ok: bool)
    ensures fresh(b) && b.Valid() && Filled(b.View())
    ensures ok <==> Import(inputs, commands).Ok?
    ensures ok ==> b.Finish() == Import(inputs, commands).value
  {
    b := new ProgrammableTransactionBuilder(true);
    ok := ReplayInputs(b, inputs);
    if ok { ok := ReplayCommands(b, commands); }
  }
}
