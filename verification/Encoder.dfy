// The type-directed argument encoder: Python values to BCS bytes, driven by a Move type.

module Encoder {
  import opened Base
  import opened LittleEndian
  import opened Uleb128
  import Utf8

  /** The body of an open Move type. */
  datatype MoveType =
    | Scalar(name: string)
    | Vector(inner: MoveType)
    | Datatype(name: string, params: seq<MoveType>)
    | TypeParameter(index: nat)

  /** The Python values a caller may pass. */
  datatype Value =
    | VNone
    | VBool(b: bool)
    | VInt(n: int)
    | VText(s: string)
    | VBytes(data: bytes)
    | VList(elems: seq<Value>)
    | VTuple(first: Value, second: Value)
    | VDict(items: seq<Value>)
  {
    function Truthy(): bool {
      match this
      case VNone => false
      case VBool(b) => b
      case VInt(n) => n != 0
      case VText(s) => s != ""
      case VBytes(data) => data != []
      case VList(elems) => elems != []
      case VTuple(_, _) => true
      case VDict(items) => items != []
    }
  }

  // ---- scalars -------------------------------------------------------------

  function IntWidth(name: string): (w: Option<nat>)
    ensures w.Some? ==> w.value > 0
  {
    if name == "u8" then Some(1)
    else if name == "u16" then Some(2)
    else if name == "u32" then Some(4)
    else if name == "u64" then Some(8)
    else if name == "u128" then Some(16)
    else if name == "u256" then Some(32)
    else None
  }

  predicate IsAddress(name: string) { name == "address" || name == "ID" || name == "UID" }

  function RawInt(n: int, width: nat): Result<bytes> {
    if 0 <= n < Pow256(width) then Ok(ToLe(n, width)) else Err("integer out of range")
  }

  function AsciiText(b: bytes): string {
    MapSeq(b, (x: byte) => x as char)
  }

  /** `Address.from_str`. A bytes object of at least 64 bytes is taken as its hexadecimal text; a
      shorter one fails where the text is searched for an x. */
  function RawAddress(v: Value): Result<bytes> {
    match v
    case VText(s) => if ParseAddress(s).Some? then Ok(ParseAddress(s).value) else Err("not an address")
    case VBytes(b) =>
      if |b| >= 64 && ParseAddress(AsciiText(b)).Some? then Ok(ParseAddress(AsciiText(b)).value)
      else Err("not an address")
    case _ => Err("not an address")
  }

  function RawText(v: Value): Result<bytes> {
    if v.VText? then Ok(BcsVec(Utf8.Encode(v.s))) else Err("not a text")
  }

  /** `_scalar_raw`; a Python bool is an integer. */
  function RawScalar(v: Value, name: string): Result<bytes> {
    if IntWidth(name).Some? then
      match v
      case VInt(n) => RawInt(n, IntWidth(name).value)
      case VBool(b) => RawInt(if b then 1 else 0, IntWidth(name).value)
      case _ => Err("not an integer")
    else if name == "bool" then Ok([if v.Truthy() then 1 else 0])
    else if IsAddress(name) then RawAddress(v)
    else if name == "String" then RawText(v)
    else Err("unknown scalar type")
  }

  // ---- sequences -----------------------------------------------------------

  function Each<T>(encode: T -> Result<bytes>, xs: seq<T>): (r: Result<seq<bytes>>)
    ensures r.Ok? ==> |r.value| == |xs| && forall i :: 0 <= i < |xs| ==> encode(xs[i]) == Ok(r.value[i])
  {
    if xs == [] then Ok([])
    else
      var first :- encode(xs[0]);
      var rest :- Each(encode, xs[1..]);
      Ok([first] + rest)
  }

  function Flat(encs: seq<bytes>): bytes {
    if encs == [] then [] else encs[0] + Flat(encs[1..])
  }

  /** The number of elements and their encodings. */
  function Listed<T>(encode: T -> Result<bytes>, xs: seq<T>): Result<bytes> {
    var encs :- Each(encode, xs);
    Ok(Uleb(|encs|) + Flat(encs))
  }

  /** `width` bytes at a time; an incomplete last chunk is dropped. */
  function Chunks(b: bytes, width: nat): (cs: seq<bytes>)
    requires width > 0
    ensures forall c :: c in cs ==> |c| == width
  {
    if |b| < width then [] else [b[..width]] + Chunks(b[width..], width)
  }

  function ChunkWidth(name: string): (w: nat)
    ensures w > 0
  {
    if IntWidth(name).Some? then IntWidth(name).value else 1
  }

  function ChunkEncoder(name: string): bytes -> Result<bytes> {
    (c: bytes) => RawScalar(VInt(FromLe(c)), name)
  }

  /** A bytes object for a vector: chunks for any scalar but u8, and otherwise the bytes themselves. */
  function RawBytes(inner: MoveType, b: bytes): Result<bytes> {
    if inner.Scalar? && inner.name != "u8" then Listed(ChunkEncoder(inner.name), Chunks(b, ChunkWidth(inner.name)))
    else Ok(BcsVec(b))
  }

  // ---- every type ----------------------------------------------------------

  predicate Absent(v: Value) {
    v == VNone || v == VList([VNone])
  }

  /** `_raw_value`, with the cases registered for each kind of body. */
  function Raw(t: MoveType, v: Value): Result<bytes>
    decreases t, 0
  {
    match t
    case Scalar(name) => RawScalar(v, name)
    case Vector(inner) =>
      (match v
       case VText(s) => RawBytes(inner, Utf8.Encode(s))
       case VBytes(b) => RawBytes(inner, b)
       case VList(xs) => Listed(ElementEncoder(inner), xs)
       case _ => Err("expected list for vector"))
    case Datatype(name, params) =>
      if name == "Option" then
        if Absent(v) then Ok([0])
        else if params == [] then Err("Option missing type parameter")
        else
          var payload :- Raw(params[0], v);
          Ok([1] + payload)
      else if name == "String" then RawText(v)
      else if name == "ID" || name == "UID" then RawAddress(v)
      else if name == "VecMap" then
        if !v.VList? && !v.VDict? then Err("VecMap expects list of (k,v) tuples or a dict")
        else if |params| < 2 then Err("VecMap missing type parameters")
        else Listed(PairEncoder(params), if v.VList? then v.elems else v.items)
      else if name == "VecSet" then
        if params == [] then Err("VecSet missing type parameter")
        else if !v.VList? then Err("expected list")
        else Listed(ElementEncoder(params[0]), v.elems)
      else Err("cannot raw-encode object type")
    case TypeParameter(_) => Err("unhandled body type")
  }

  function ElementEncoder(t: MoveType): Value -> Result<bytes>
    decreases t, 1
  {
    (v: Value) => Raw(t, v)
  }

  /** Unpacking `k, v`: a tuple of two, or anything else of length two that yields its elements. */
  function Unpack(p: Value): Result<(Value, Value)> {
    match p
    case VTuple(k, v) => Ok((k, v))
    case VList(xs) => if |xs| == 2 then Ok((xs[0], xs[1])) else Err("cannot unpack")
    case VBytes(b) => if |b| == 2 then Ok((VInt(b[0]), VInt(b[1]))) else Err("cannot unpack")
    case VText(s) => if |s| == 2 then Ok((VText([s[0]]), VText([s[1]]))) else Err("cannot unpack")
    case VDict(xs) =>
      if |xs| == 2 && xs[0].VTuple? && xs[1].VTuple? then Ok((xs[0].first, xs[1].first)) else Err("cannot unpack")
    case _ => Err("cannot unpack")
  }

  function RawPair(params: seq<MoveType>, p: Value): Result<bytes>
    requires |params| >= 2
    decreases params, 0
  {
    var (x, y) :- Unpack(p);
    var key :- Raw(params[0], x);
    var value :- Raw(params[1], y);
    Ok(key + value)
  }

  function PairEncoder(params: seq<MoveType>): Value -> Result<bytes>
    requires |params| >= 2
    decreases params, 1
  {
    (p: Value) => RawPair(params, p)
  }

  // ---- the loops -----------------------------------------------------------

  lemma {:induction false} EachIs<T>(encode: T -> Result<bytes>, xs: seq<T>, encs: seq<bytes>)
    requires |encs| == |xs| && MappedSoFar(encode, xs, encs)
    ensures Each(encode, xs) == Ok(encs)
  {
    if xs != [] {
      EachIs(encode, xs[1..], encs[1..]);
      assert [encs[0]] + encs[1..] == encs;
    }
  }

  lemma {:induction false} EachFails<T>(encode: T -> Result<bytes>, xs: seq<T>, encs: seq<bytes>)
    requires MappedSoFar(encode, xs, encs) && |encs| < |xs| && encode(xs[|encs|]).Err?
    ensures Each(encode, xs) == Err(encode(xs[|encs|]).why)
    decreases |encs|
  {
    if encs != [] { EachFails(encode, xs[1..], encs[1..]); }
  }

  lemma {:induction false} FlatAppend(encs: seq<bytes>, e: bytes)
    ensures Flat(encs + [e]) == Flat(encs) + e
  {
    if encs == [] {
      assert encs + [e] == [e] && (encs + [e])[1..] == [];
    } else {
      FlatAppend(encs[1..], e);
      assert (encs + [e])[1..] == encs[1..] + [e];
    }
  }

  /** The loop that extends the result by each encoding. */
  method ExtendAll(prefix: bytes, encs: seq<bytes>) returns (result: bytes)
    ensures result == prefix + Flat(encs)
  {
    result := prefix;
    for i := 0 to |encs|
      invariant result == prefix + Flat(encs[..i])
    {
      FlatAppend(encs[..i], encs[i]);
      assert encs[..i + 1] == encs[..i] + [encs[i]];
      result := result + encs[i];
    }
    assert encs[..|encs|] == encs;
  }

  /** The chunks from `i` on, where `i` may have passed the end. */
  function ChunksFrom(b: bytes, i: nat, width: nat): seq<bytes>
    requires width > 0
  {
    if i <= |b| then Chunks(b[i..], width) else []
  }

  lemma FirstChunk(rest: bytes, width: nat, chunk: bytes, later: bytes)
    requires width > 0 && rest == chunk + later && |chunk| == width
    ensures Chunks(rest, width) == [chunk] + Chunks(later, width)
  {
    assert rest[..width] == chunk && rest[width..] == later;
  }

  lemma ChunksStep(chunks: seq<bytes>, b: bytes, i: nat, width: nat, chunk: bytes, later: seq<bytes>)
    requires width > 0 && i + width <= |b| && chunk == b[i..i + width] && later == ChunksFrom(b, i + width, width)
    ensures chunks + ChunksFrom(b, i, width) == chunks + [chunk] + later
  {
    assert b[i..] == chunk + b[i + width..];
    FirstChunk(b[i..], width, chunk, b[i + width..]);
    assert chunks + ([chunk] + later) == chunks + [chunk] + later;
  }

  lemma NoChunkLeft(b: bytes, i: nat, width: nat)
    requires i <= |b| < i + width
    ensures ChunksFrom(b, i, width) == ChunksFrom(b, i + width, width) == []
  {
  }

  /** The slices of `width` bytes, keeping the complete ones. */
  method SplitChunks(b: bytes, width: nat) returns (chunks: seq<bytes>)
    requires width > 0
    ensures chunks == Chunks(b, width)
  {
    chunks := [];
    var i: nat := 0;
    assert b[0..] == b;
    while i < |b|
      invariant Chunks(b, width) == chunks + ChunksFrom(b, i, width)
    {
      if i + width <= |b| {
        ChunksStep(chunks, b, i, width, b[i..i + width], ChunksFrom(b, i + width, width));
        chunks := chunks + [b[i..i + width]];
      } else {
        NoChunkLeft(b, i, width);
      }
      i := i + width;
    }
  }

  /** The loop that extends the result by the encoding of each chunk. */
  method EncodeChunks(encode: bytes -> Result<bytes>, chunks: seq<bytes>) returns (r: Result<bytes>)
    ensures r == Listed(encode, chunks)
  {
    var result := SerializeAsUleb128(|chunks|);
    ghost var encs: seq<bytes> := [];
    for i := 0 to |chunks|
      invariant |encs| == i && MappedSoFar(encode, chunks, encs)
      invariant result == Uleb(|chunks|) + Flat(encs)
    {
      var enc := encode(chunks[i]);
      if enc.Err? {
        EachFails(encode, chunks, encs);
        return enc;
      }
      FlatAppend(encs, enc.value);
      MappedOneMore(encode, chunks, encs, enc.value);
      encs := encs + [enc.value];
      result := result + enc.value;
    }
    EachIs(encode, chunks, encs);
    return Ok(result);
  }

  /** The bytes shortcut of `_raw_vector`. */
  method RawVectorOfBytes(inner: MoveType, b: bytes) returns (r: Result<bytes>)
    ensures r == RawBytes(inner, b)
  {
    if inner.Scalar? && inner.name != "u8" {
      var chunks := SplitChunks(b, ChunkWidth(inner.name));
      r := EncodeChunks(ChunkEncoder(inner.name), chunks);
      return;
    }
    var length := SerializeAsUleb128(|b|);
    return Ok(length + b);
  }

  /** `_raw_vector_of`, and the list case of `_raw_vector`. */
  method RawVectorOf(inner: MoveType, elems: seq<Value>) returns (r: Result<bytes>)
    ensures r == Listed(ElementEncoder(inner), elems)
    decreases inner, 1
  {
    var encoded: seq<bytes> := [];
    ghost var encode := ElementEncoder(inner);
    for i := 0 to |elems|
      invariant |encoded| == i && MappedSoFar(encode, elems, encoded)
    {
      var enc := RawValue(inner, elems[i]);
      assert enc == encode(elems[i]);
      if enc.Err? {
        EachFails(encode, elems, encoded);
        return enc;
      }
      MappedOneMore(encode, elems, encoded, enc.value);
      encoded := encoded + [enc.value];
    }
    EachIs(encode, elems, encoded);
    var length := SerializeAsUleb128(|encoded|);
    var result := ExtendAll(length, encoded);
    return Ok(result);
  }

  method EncodePair(params: seq<MoveType>, p: Value) returns (r: Result<bytes>)
    requires |params| >= 2
    ensures r == PairEncoder(params)(p)
    decreases params, 0
  {
    var kv := Unpack(p);
    if kv.Err? { return Err(kv.why); }
    var key := RawValue(params[0], kv.value.0);
    if key.Err? { return key; }
    var value := RawValue(params[1], kv.value.1);
    if value.Err? { return value; }
    return Ok(key.value + value.value);
  }

  /** `_vecmap_raw`, once the pairs and the two type parameters are known. */
  method VecmapRaw(params: seq<MoveType>, pairs: seq<Value>) returns (r: Result<bytes>)
    requires |params| >= 2
    ensures r == Listed(PairEncoder(params), pairs)
    decreases params, 1
  {
    var result := SerializeAsUleb128(|pairs|);
    ghost var encode, encs: seq<bytes> := PairEncoder(params), [];
    for i := 0 to |pairs|
      invariant |encs| == i && MappedSoFar(encode, pairs, encs)
      invariant result == Uleb(|pairs|) + Flat(encs)
    {
      var enc := EncodePair(params, pairs[i]);
      if enc.Err? {
        EachFails(encode, pairs, encs);
        return enc;
      }
      FlatAppend(encs, enc.value);
      MappedOneMore(encode, pairs, encs, enc.value);
      encs := encs + [enc.value];
      result := result + enc.value;
    }
    EachIs(encode, pairs, encs);
    return Ok(result);
  }

  /** The registered case for a datatype. */
  method RawDatatype(name: string, params: seq<MoveType>, v: Value) returns (r: Result<bytes>)
    ensures r == Raw(Datatype(name, params), v)
    decreases params, 2
  {
    if name == "Option" {
      if Absent(v) { return Ok([0]); }
      if params == [] { return Err("Option missing type parameter"); }
      var payload := RawValue(params[0], v);
      return if payload.Ok? then Ok([1] + payload.value) else payload;
    } else if name == "VecMap" {
      if !v.VList? && !v.VDict? { return Err("VecMap expects list of (k,v) tuples or a dict"); }
      if |params| < 2 { return Err("VecMap missing type parameters"); }
      r := VecmapRaw(params, if v.VDict? then v.items else v.elems);
    } else if name == "VecSet" {
      if params == [] { return Err("VecSet missing type parameter"); }
      if !v.VList? { return Err("expected list"); }
      r := RawVectorOf(params[0], v.elems);
    } else {
      return if name == "String" then RawText(v)
             else if name == "ID" || name == "UID" then RawAddress(v)
             else Err("cannot raw-encode object type");
    }
  }

  /** `_raw_value`. */
  method RawValue(t: MoveType, v: Value) returns (r: Result<bytes>)
    ensures r == Raw(t, v)
    decreases t, 0
  {
    match t
    case Scalar(name) => return RawScalar(v, name);
    case Vector(inner) =>
      if v.VText? {
        r := RawVectorOfBytes(inner, Utf8.Encode(v.s));
      } else if v.VBytes? {
        r := RawVectorOfBytes(inner, v.data);
      } else if v.VList? {
        r := RawVectorOf(inner, v.elems);
      } else {
        return Err("expected list for vector");
      }
    case Datatype(name, params) => r := RawDatatype(name, params, v);
    case TypeParameter(_) => return Err("unhandled body type");
  }
}
