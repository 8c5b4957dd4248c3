// Paying for an imported block: the import leaves the object registry empty, so that the conflict
// filter knows only the objects that resolution registers again.

module ImportPayment {
  import opened Base
  import opened Ptb
  import opened BuilderSpec
  import opened BuilderLaws
  import opened Resolution
  import opened Payment
  import opened TxbImport

  /** A deferred input has that very id. */
  predicate Relisted(inputs: seq<CallArg>, id: string) {
    exists i :: 0 <= i < |inputs| && DefersTo(inputs[i], id)
  }

  predicate DefersTo(ca: CallArg, id: string) {
    ca.UnresolvedObject? && ca.unres.id == id
  }

  /** Resolution registers the object under its canonical id. */
  predicate ObjectRelisted(inputs: seq<CallArg>, ca: CallArg) {
    match ca
    case Object(o) => Relisted(inputs, PrintAddress(o.Id()))
    case UnresolvedObject(u) =>
      ParseAddress(u.id).Some? ==> Relisted(inputs, PrintAddress(ParseAddress(u.id).value))
    case _ => true
  }

  predicate ObjectsRelisted(inputs: seq<CallArg>) {
    forall i :: 0 <= i < |inputs| ==> ObjectRelisted(inputs, inputs[i])
  }

  lemma FilledKeysMatch(s: State)
    requires Filled(s)
    ensures KeysMatch(s)
  {
  }

  lemma FilledRegisters(s: State, id: string)
    requires Filled(s)
    ensures Registers(s, id) <==> Relisted(CallArgs(s), id)
  {
    var inputs := CallArgs(s);
    forall i | 0 <= i < |s.inputs| ensures s.inputs[i].key == KUnresolved(id) <==> DefersTo(inputs[i], id) {
      assert s.inputs[i].key == KeyFor(inputs[i]);
    }
  }

  lemma FilledObjects(s: State)
    requires Filled(s)
    ensures ObjectsRegistered(s) <==> ObjectsRelisted(CallArgs(s))
  {
    var inputs := CallArgs(s);
    forall i | 0 <= i < |inputs| ensures ObjectRegistered(s, s.inputs[i]) <==> ObjectRelisted(inputs, inputs[i]) {
      assert s.inputs[i].key == KeyFor(inputs[i]);
      match inputs[i]
      case Object(o) => FilledRegisters(s, PrintAddress(o.Id()));
      case UnresolvedObject(u) =>
        if ParseAddress(u.id).Some? { FilledRegisters(s, PrintAddress(ParseAddress(u.id).value)); }
      case _ =>
    }
    if ObjectsRelisted(inputs) {
      forall i | 0 <= i < |s.inputs| ensures ObjectRegistered(s, s.inputs[i]) {
        assert ObjectRelisted(inputs, inputs[i]);
      }
    }
    if ObjectsRegistered(s) {
      forall i | 0 <= i < |inputs| ensures ObjectRelisted(inputs, inputs[i]) {
        assert ObjectRegistered(s, s.inputs[i]);
      }
    }
  }

  /** An imported builder, resolved: every payment covers the budget and what the commands draw; and no
      payment ever shares an object with the block, exactly if each of its objects is also, or again, a
      deferred input by its canonical id. */
  lemma ImportIsPaidFor(s: State, cache: Option<Cache>, client: Client, t: State)
    requires Filled(s) && (cache.Some? ==> CacheOk(cache.value))
    requires ResolveDeferred(s, cache, client) == Outcome(t, Ok(()))
    ensures Covered(t) && (NeverShares(t) <==> ObjectsRelisted(CallArgs(s)))
  {
    FilledKeysMatch(s);
    ResolvedBuilder(s, cache, client);
    NeverSharesExactly(s, t);
    FilledObjects(s);
    EveryPaymentCovers(t);
  }

  /** An imported block with one resolved object: some payment is that object. */
  lemma ImportedObjectIsSpent(s: State, o: ObjectArg, cache: Option<Cache>, client: Client)
    requires Filled(s) && CallArgs(s) == [Object(o)] && (cache.Some? ==> CacheOk(cache.value))
    ensures ResolveDeferred(s, cache, client) == Outcome(s, Ok(())) && !NeverShares(s)
  {
    FilledKeysMatch(s);
    assert s.inputs[0].arg == CallArgs(s)[0];
    NothingDeferred(s, cache, client);
    ImportIsPaidFor(s, cache, client, s);
    assert !ObjectRelisted(CallArgs(s), CallArgs(s)[0]);
  }
}
