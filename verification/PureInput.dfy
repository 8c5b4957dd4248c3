// Pure inputs made from Python values without a Move type, and their agreement with the typed encoder.

module PureInput {
  import opened Base
  import opened LittleEndian
  import opened Uleb128
  import opened Encoder
  import Utf8

  /** The arguments of `PureInput.pure` that carry their own type: `PSized` is a sized integer. */
  datatype PureValue =
    | PBool(b: bool)
    | PSized(width: nat, n: int)
    | PText(s: string)
    | PAddress(a: Address)
    | PList(elems: seq<PureValue>)

  function PureBytes(p: PureValue): Result<bytes>
    decreases p, 0
  {
    match p
    case PBool(b) => Ok([if b then 1 else 0])
    case PSized(width, n) => RawInt(n, width)
    case PText(s) => Ok(BcsVec(Utf8.Encode(s)))
    case PAddress(a) => Ok(a)
    case PList(ps) =>
      var staged :- PureEach(ps);
      Ok(Uleb(|staged|) + Flat(staged))
  }

  function PureEach(ps: seq<PureValue>): (r: Result<seq<bytes>>)
    decreases ps, 1
  {
    if ps == [] then Ok([])
    else
      var first :- PureBytes(ps[0]);
      var rest :- PureEach(ps[1..]);
      Ok([first] + rest)
  }

  lemma {:induction false} StagedSoFar(ps: seq<PureValue>, staged: seq<bytes>, i: nat)
    requires i == |staged| <= |ps| && forall j :: 0 <= j < i ==> PureBytes(ps[j]) == Ok(staged[j])
    ensures i == |ps| ==> PureEach(ps) == Ok(staged)
    ensures i < |ps| && PureBytes(ps[i]).Err? ==> PureEach(ps) == Err(PureBytes(ps[i]).why)
    decreases i
  {
    if i > 0 {
      StagedSoFar(ps[1..], staged[1..], i - 1);
      assert [staged[0]] + staged[1..] == staged;
    }
  }

  /** `PureInput.pure`: a list is staged element by element, then joined. */
  method Pure(p: PureValue) returns (r: Result<bytes>)
    ensures r == PureBytes(p)
    decreases p
  {
    match p
    case PBool(b) => return Ok([if b then 1 else 0]);
    case PSized(width, n) => return RawInt(n, width);
    case PText(s) =>
      var u := Utf8.Encode(s);
      var length := SerializeAsUleb128(|u|);
      return Ok(length + u);
    case PAddress(a) => return Ok(a);
    case PList(ps) =>
      var staged: seq<bytes> := [];
      for i := 0 to |ps|
        invariant |staged| == i && forall j :: 0 <= j < i ==> PureBytes(ps[j]) == Ok(staged[j])
      {
        var one := Pure(ps[i]);
        StagedSoFar(ps, staged, i);
        if one.Err? { return one; }
        staged := staged + [one.value];
      }
      StagedSoFar(ps, staged, |ps|);
      var length := SerializeAsUleb128(|staged|);
      var joined := ExtendAll(length, staged);
      return Ok(joined);
  }

  predicate AddressType(t: MoveType) {
    (t.Scalar? && IsAddress(t.name)) || (t.Datatype? && (t.name == "ID" || t.name == "UID"))
  }

  predicate TextType(t: MoveType) {
    (t.Scalar? || t.Datatype?) && t.name == "String"
  }

  /** The self-typed argument `p` stands for the value `v` of type `t`. */
  predicate StandsFor(p: PureValue, t: MoveType, v: Value)
    decreases p
  {
    match p
    case PBool(b) => t == Scalar("bool") && v == VBool(b)
    case PSized(width, n) => t.Scalar? && IntWidth(t.name) == Some(width) && v == VInt(n)
    case PText(s) => TextType(t) && v == VText(s)
    case PAddress(a) => AddressType(t) && v.VText? && ParseAddress(v.s) == Some(a)
    case PList(ps) =>
      t.Vector? && v.VList? && |v.elems| == |ps| && forall i :: 0 <= i < |ps| ==> StandsFor(ps[i], t.inner, v.elems[i])
  }

  lemma {:induction false} EachAgrees(ps: seq<PureValue>, t: MoveType, vs: seq<Value>)
    requires |vs| == |ps| && forall i :: 0 <= i < |ps| ==> StandsFor(ps[i], t, vs[i])
    ensures PureEach(ps) == Each(ElementEncoder(t), vs)
    decreases ps, 1
  {
    if ps != [] {
      PureAgrees(ps[0], t, vs[0]);
      EachAgrees(ps[1..], t, vs[1..]);
    }
  }

  /** The bytes, or the failure, of a self-typed argument are those of the typed encoder. */
  lemma {:induction false} PureAgrees(p: PureValue, t: MoveType, v: Value)
    requires StandsFor(p, t, v)
    ensures PureBytes(p) == Raw(t, v)
    decreases p, 0
  {
    if p.PList? { EachAgrees(p.elems, t.inner, v.elems); }
  }
}
