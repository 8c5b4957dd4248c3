// What the argument encoder promises: which values its bytes determine, and that its shortcuts
// agree with the element-wise path.

module EncoderLaws {
  import opened Base
  import opened LittleEndian
  import opened Uleb128
  import opened Encoder
  import Utf8

  // ---- a decoder driven by the type ----------------------------------------

  /** A value and what follows it. */
  type Parsed = Option<(Value, bytes)>

  function ReadLength(data: bytes): Option<(nat, bytes)> {
    match Decode(data, 0)
    case Some((n, p)) => Some((n, data[p..]))
    case None => None
  }

  function ReadInt(width: nat, data: bytes): Parsed {
    if |data| < width then None else Some((VInt(FromLe(data[..width])), data[width..]))
  }

  function ReadBool(data: bytes): Parsed {
    if data == [] || data[0] > 1 then None else Some((VBool(data[0] == 1), data[1..]))
  }

  function ReadAddress(data: bytes): Parsed {
    if |data| < 32 then None else Some((VText(PrintAddress(data[..32])), data[32..]))
  }

  function ReadText(data: bytes): Parsed {
    match ReadLength(data)
    case None => None
    case Some((n, rest)) =>
      if |rest| < n then None
      else
        match Utf8.Decode(rest[..n])
        case None => None
        case Some(s) => Some((VText(s), rest[n..]))
  }

  function ReadScalar(name: string, data: bytes): Parsed {
    if IntWidth(name).Some? then ReadInt(IntWidth(name).value, data)
    else if name == "bool" then ReadBool(data)
    else if IsAddress(name) then ReadAddress(data)
    else if name == "String" then ReadText(data)
    else None
  }

  function ReadMany(read: bytes -> Parsed, data: bytes, count: nat): Option<(seq<Value>, bytes)>
    decreases count
  {
    if count == 0 then Some(([], data))
    else
      match read(data)
      case None => None
      case Some((x, rest)) =>
        match ReadMany(read, rest, count - 1)
        case None => None
        case Some((xs, end)) => Some(([x] + xs, end))
  }

  function ReadList(read: bytes -> Parsed, data: bytes): (r: Parsed)
    ensures r.Some? ==> r.value.0.VList?
  {
    match ReadLength(data)
    case None => None
    case Some((n, rest)) =>
      match ReadMany(read, rest, n)
      case None => None
      case Some((xs, end)) => Some((VList(xs), end))
  }

  function ReadOption(read: bytes -> Parsed, data: bytes): Parsed {
    if data == [] || data[0] > 1 then None
    else if data[0] == 0 then Some((VNone, data[1..]))
    else read(data[1..])
  }

  function ReadTwo(first: bytes -> Parsed, second: bytes -> Parsed, data: bytes): Parsed {
    match first(data)
    case None => None
    case Some((k, rest)) =>
      match second(rest)
      case None => None
      case Some((v, end)) => Some((VTuple(k, v), end))
  }

  function NoReader(): bytes -> Parsed {
    (data: bytes) => None
  }

  function Read(t: MoveType, data: bytes): Parsed
    decreases t, 0
  {
    match t
    case Scalar(name) => ReadScalar(name, data)
    case Vector(inner) => ReadList(Reader(inner), data)
    case Datatype(name, params) =>
      if name == "Option" then
        ReadOption(if params == [] then NoReader() else Reader(params[0]), data)
      else if name == "String" then ReadText(data)
      else if name == "ID" || name == "UID" then ReadAddress(data)
      else if name == "VecMap" then
        if |params| < 2 then None else ReadList(PairReader(params), data)
      else if name == "VecSet" then
        if params == [] then None else ReadList(Reader(params[0]), data)
      else None
    case TypeParameter(_) => None
  }

  function Reader(t: MoveType): bytes -> Parsed
    decreases t, 1
  {
    (data: bytes) => Read(t, data)
  }

  function PairReader(params: seq<MoveType>): bytes -> Parsed
    requires |params| >= 2
    decreases params, 1
  {
    (data: bytes) => ReadTwo(Reader(params[0]), Reader(params[1]), data)
  }

  // ---- the values that are recovered ---------------------------------------

  predicate PlainScalar(name: string, v: Value) {
    if IntWidth(name).Some? then v.VInt?
    else if name == "bool" then v.VBool?
    else if IsAddress(name) then v.VText? && Canonical(v.s)
    else v.VText?
  }

  predicate AllPlain(plain: Value -> bool, xs: seq<Value>) {
    forall i :: 0 <= i < |xs| ==> plain(xs[i])
  }

  /** The value is written in the type's own form: integers as integers, addresses padded, lists and
      tuples rather than bytes or dicts, and an Option payload that is neither None nor [None]. */
  predicate Plain(t: MoveType, v: Value)
    decreases t, 0
  {
    match t
    case Scalar(name) => PlainScalar(name, v)
    case Vector(inner) => v.VList? && AllPlain(Plainer(inner), v.elems)
    case Datatype(name, params) =>
      if name == "Option" then v == VNone || (!Absent(v) && params != [] && Plain(params[0], v))
      else if name == "String" then v.VText?
      else if name == "ID" || name == "UID" then v.VText? && Canonical(v.s)
      else if name == "VecMap" then v.VList? && |params| >= 2 && AllPlain(PairPlainer(params), v.elems)
      else v.VList? && params != [] && AllPlain(Plainer(params[0]), v.elems)
    case TypeParameter(_) => false
  }

  function Plainer(t: MoveType): Value -> bool
    decreases t, 1
  {
    (v: Value) => Plain(t, v)
  }

  predicate PlainPair(params: seq<MoveType>, p: Value)
    requires |params| >= 2
    decreases params, 0
  {
    p.VTuple? && Plain(params[0], p.first) && Plain(params[1], p.second)
  }

  function PairPlainer(params: seq<MoveType>): Value -> bool
    requires |params| >= 2
    decreases params, 1
  {
    (p: Value) => PlainPair(params, p)
  }

  // ---- recovery ------------------------------------------------------------

  /** What is read from an encoding followed by `s`: the value and `s` if the value is plain, and
      never the value if it is not. */
  predicate Settled(enc: Result<bytes>, read: bytes -> Parsed, plain: bool, v: Value, s: bytes) {
    enc.Ok? ==>
      && (plain ==> read(enc.value + s) == Some((v, s)))
      && (read(enc.value + s).Some? && read(enc.value + s).value.0 == v ==> plain)
  }

  lemma LengthThen(n: nat, rest: bytes)
    ensures ReadLength(Uleb(n) + rest) == Some((n, rest))
  {
    DecodeEncoded([], n, rest);
    assert [] + Uleb(n) + rest == Uleb(n) + rest;
    assert (Uleb(n) + rest)[|Uleb(n)|..] == rest;
  }

  lemma IntSettled(n: int, width: nat, v: Value, s: bytes)
    requires v == VInt(n) || (v.VBool? && n == if v.b then 1 else 0)
    ensures Settled(RawInt(n, width), (data: bytes) => ReadInt(width, data), v.VInt?, v, s)
  {
    if 0 <= n < Pow256(width) {
      FromToLe(n, width);
      assert (ToLe(n, width) + s)[..width] == ToLe(n, width) && (ToLe(n, width) + s)[width..] == s;
    }
  }

  lemma AddressSettled(v: Value, s: bytes)
    ensures Settled(RawAddress(v), ReadAddress, v.VText? && Canonical(v.s), v, s)
  {
    if RawAddress(v).Ok? {
      var a := RawAddress(v).value;
      assert |a| == 32 && (a + s)[..32] == a && (a + s)[32..] == s;
      ParsePrintAddress(a);
    }
  }

  lemma TextSettled(v: Value, s: bytes)
    ensures Settled(RawText(v), ReadText, v.VText?, v, s)
  {
    if v.VText? {
      TextReads(v.s, Utf8.Encode(v.s), s);
    }
  }

  lemma TextReads(text: string, u: bytes, s: bytes)
    requires u == Utf8.Encode(text)
    ensures ReadText(BcsVec(u) + s) == Some((VText(text), s))
  {
    Utf8.RoundTrip(text);
    LengthThen(|u|, u + s);
    assert BcsVec(u) + s == Uleb(|u|) + (u + s);
    assert (u + s)[..|u|] == u && (u + s)[|u|..] == s;
  }

  lemma ScalarSettled(name: string, v: Value, s: bytes)
    ensures Settled(RawScalar(v, name), (data: bytes) => ReadScalar(name, data), PlainScalar(name, v), v, s)
  {
    if IntWidth(name).Some? {
      if v.VInt? { IntSettled(v.n, IntWidth(name).value, v, s); }
      if v.VBool? { IntSettled(if v.b then 1 else 0, IntWidth(name).value, v, s); }
    } else if name == "bool" {
      var enc: bytes := [if v.Truthy() then 1 else 0];
      assert (enc + s)[1..] == s;
    } else if IsAddress(name) {
      AddressSettled(v, s);
    } else {
      TextSettled(v, s);
    }
  }

  ghost predicate SettledAll(encode: Value -> Result<bytes>, read: bytes -> Parsed, plain: Value -> bool) {
    forall v: Value, s: bytes :: Settled(encode(v), read, plain(v), v, s)
  }

  /** What is read back from the encodings of several values. */
  lemma {:induction false} ManySettled(encode: Value -> Result<bytes>, read: bytes -> Parsed, plain: Value -> bool,
                                       xs: seq<Value>, s: bytes)
    requires SettledAll(encode, read, plain) && Each(encode, xs).Ok?
    ensures AllPlain(plain, xs) ==> ReadMany(read, Flat(Each(encode, xs).value) + s, |xs|) == Some((xs, s))
    ensures var r := ReadMany(read, Flat(Each(encode, xs).value) + s, |xs|);
      r.Some? && r.value.0 == xs ==> AllPlain(plain, xs)
    decreases |xs|
  {
    if xs == [] {
      assert [] + s == s;
    } else {
      var e, more := encode(xs[0]).value, Each(encode, xs[1..]).value;
      var data := Flat(Each(encode, xs).value) + s;
      assert data == e + (Flat(more) + s);
      assert Settled(encode(xs[0]), read, plain(xs[0]), xs[0], Flat(more) + s);
      ManySettled(encode, read, plain, xs[1..], s);
      assert AllPlain(plain, xs) <==> plain(xs[0]) && AllPlain(plain, xs[1..]);
      assert [xs[0]] + xs[1..] == xs;
      var r := ReadMany(read, data, |xs|);
      if r.Some? && r.value.0 == xs {
        var first := read(data).value;
        assert r.value.0 == [first.0] + ReadMany(read, first.1, |xs| - 1).value.0;
        assert first.0 == xs[0] && r.value.0[1..] == xs[1..];
      }
    }
  }

  lemma ListSettled(encode: Value -> Result<bytes>, read: bytes -> Parsed, plain: Value -> bool, v: Value,
                    xs: seq<Value>, s: bytes)
    requires SettledAll(encode, read, plain)
    requires v.VList? ==> xs == v.elems
    ensures Settled(Listed(encode, xs), (data: bytes) => ReadList(read, data), v.VList? && AllPlain(plain, xs), v, s)
  {
    if Each(encode, xs).Ok? {
      var encs := Each(encode, xs).value;
      assert Uleb(|encs|) + Flat(encs) + s == Uleb(|xs|) + (Flat(encs) + s);
      LengthThen(|xs|, Flat(encs) + s);
      ManySettled(encode, read, plain, xs, s);
    }
  }

  lemma {:induction false} ElementsSettled(t: MoveType)
    ensures SettledAll(ElementEncoder(t), Reader(t), Plainer(t))
    decreases t, 1
  {
    forall v: Value, s: bytes ensures Settled(ElementEncoder(t)(v), Reader(t), Plainer(t)(v), v, s) {
      RawSettled(t, v, s);
    }
  }

  lemma TwoSettled(r1: bytes -> Parsed, r2: bytes -> Parsed, p1: bool, p2: bool, p: Value, s: bytes,
                   x: Value, y: Value, key: Result<bytes>, value: Result<bytes>)
    requires p.VTuple? ==> x == p.first && y == p.second
    requires key.Ok? && value.Ok?
    requires Settled(key, r1, p1, x, value.value + s) && Settled(value, r2, p2, y, s)
    ensures Settled(Ok(key.value + value.value), (data: bytes) => ReadTwo(r1, r2, data), p.VTuple? && p1 && p2, p, s)
  {
    assert key.value + value.value + s == key.value + (value.value + s);
  }

  lemma {:induction false} PairSettled(params: seq<MoveType>, p: Value, s: bytes)
    requires |params| >= 2
    ensures Settled(RawPair(params, p), PairReader(params), PlainPair(params, p), p, s)
    decreases params, 0
  {
    if RawPair(params, p).Ok? {
      var (x, y) := Unpack(p).value;
      var key, value := Raw(params[0], x), Raw(params[1], y);
      RawSettled(params[0], x, value.value + s);
      RawSettled(params[1], y, s);
      TwoSettled(Reader(params[0]), Reader(params[1]), Plain(params[0], x), Plain(params[1], y), p, s, x, y,
                 key, value);
    }
  }

  lemma {:induction false} PairsSettled(params: seq<MoveType>)
    requires |params| >= 2
    ensures SettledAll(PairEncoder(params), PairReader(params), PairPlainer(params))
    decreases params, 1
  {
    forall p: Value, s: bytes
      ensures Settled(PairEncoder(params)(p), PairReader(params), PairPlainer(params)(p), p, s)
    {
      PairSettled(params, p, s);
    }
  }

  lemma AbsentSettled(read: bytes -> Parsed, v: Value, s: bytes)
    requires Absent(v)
    ensures Settled(Ok([0]), (data: bytes) => ReadOption(read, data), v == VNone, v, s)
  {
    assert ([0] + s)[1..] == s;
  }

  lemma PresentSettled(read: bytes -> Parsed, plain: bool, v: Value, s: bytes, payload: Result<bytes>)
    requires payload.Ok? && Settled(payload, read, plain, v, s)
    ensures Settled(Ok([1] + payload.value), (data: bytes) => ReadOption(read, data), plain, v, s)
  {
    assert ([1] + payload.value + s)[1..] == payload.value + s;
  }

  lemma {:induction false} OptionSettled(params: seq<MoveType>, v: Value, s: bytes)
    ensures var t := Datatype("Option", params); Settled(Raw(t, v), Reader(t), Plain(t, v), v, s)
    decreases params, 0
  {
    var t, read := Datatype("Option", params), if params == [] then NoReader() else Reader(params[0]);
    assert forall data :: Read(t, data) == ReadOption(read, data);
    if Absent(v) {
      AbsentSettled(read, v, s);
    } else if params != [] {
      RawSettled(params[0], v, s);
      var payload := Raw(params[0], v);
      assert payload.Err? ==> Raw(t, v).Err?;
      if payload.Ok? {
        assert Raw(t, v) == Ok([1] + payload.value);
        PresentSettled(read, Plain(params[0], v), v, s, payload);
      }
    }
  }

  lemma {:induction false} VecMapSettled(params: seq<MoveType>, v: Value, s: bytes)
    ensures var t := Datatype("VecMap", params); Settled(Raw(t, v), Reader(t), Plain(t, v), v, s)
    decreases params, 2
  {
    if |params| >= 2 {
      PairsSettled(params);
      assert forall data :: Read(Datatype("VecMap", params), data) == ReadList(PairReader(params), data);
      ListSettled(PairEncoder(params), PairReader(params), PairPlainer(params), v,
                  if v.VList? then v.elems else if v.VDict? then v.items else [], s);
    }
  }

  lemma {:induction false} VectorSettled(inner: MoveType, v: Value, s: bytes)
    ensures Settled(Raw(Vector(inner), v), Reader(Vector(inner)), Plain(Vector(inner), v), v, s)
    decreases inner, 2
  {
    ElementsSettled(inner);
    assert forall data :: Read(Vector(inner), data) == ReadList(Reader(inner), data);
    if v.VList? {
      ListSettled(ElementEncoder(inner), Reader(inner), Plainer(inner), v, v.elems, s);
    } else {
      var r := Raw(Vector(inner), v);
      if r.Ok? { assert Reader(Vector(inner))(r.value + s) == ReadList(Reader(inner), r.value + s); }
    }
  }

  lemma {:induction false} VecSetSettled(params: seq<MoveType>, v: Value, s: bytes)
    ensures var t := Datatype("VecSet", params); Settled(Raw(t, v), Reader(t), Plain(t, v), v, s)
    decreases params, 2
  {
    if params != [] && v.VList? {
      ElementsSettled(params[0]);
      assert forall data :: Read(Datatype("VecSet", params), data) == ReadList(Reader(params[0]), data);
      ListSettled(ElementEncoder(params[0]), Reader(params[0]), Plainer(params[0]), v, v.elems, s);
    }
  }

  lemma {:induction false} RawSettled(t: MoveType, v: Value, s: bytes)
    ensures Settled(Raw(t, v), Reader(t), Plain(t, v), v, s)
    decreases t, 0
  {
    match t
    case Scalar(name) =>
      ScalarSettled(name, v, s);
      assert forall data :: Read(t, data) == ReadScalar(name, data);
    case Vector(inner) => VectorSettled(inner, v, s);
    case Datatype(name, params) =>
      if name == "Option" {
        OptionSettled(params, v, s);
      } else if name == "VecMap" {
        VecMapSettled(params, v, s);
      } else if name == "VecSet" {
        VecSetSettled(params, v, s);
      } else if name == "String" {
        TextSettled(v, s);
      } else if name == "ID" || name == "UID" {
        assert forall data :: Read(t, data) == ReadAddress(data);
        assert Raw(t, v) == RawAddress(v) && Plain(t, v) == (v.VText? && Canonical(v.s));
        AddressSettled(v, s);
      } else {
        assert Raw(t, v).Err?;
      }
    case TypeParameter(_) =>
  }

  /** For every type and every value the encoder accepts, the decoder gives the value and the
      untouched remainder back exactly if the value is plain. */
  lemma RecoveredExactly(t: MoveType, v: Value, s: bytes)
    requires Raw(t, v).Ok?
    ensures Read(t, Raw(t, v).value + s) == Some((v, s)) <==> Plain(t, v)
  {
    RawSettled(t, v, s);
    assert Reader(t)(Raw(t, v).value + s) == Read(t, Raw(t, v).value + s);
  }

  /** No encoding of a plain value is a proper prefix of another's, and none is shared. */
  lemma PrefixFree(t: MoveType, v: Value, w: Value, r: bytes, s: bytes)
    requires Plain(t, v) && Plain(t, w) && Raw(t, v).Ok? && Raw(t, w).Ok?
    requires Raw(t, v).value + r == Raw(t, w).value + s
    ensures v == w && r == s
  {
    RecoveredExactly(t, v, r);
    RecoveredExactly(t, w, s);
  }

  /** An Option is encoded as absent exactly for None and [None] ... */
  lemma AbsentExactly(inner: MoveType, v: Value)
    ensures Raw(Datatype("Option", [inner]), v) == Ok([0]) <==> Absent(v)
  {
    if !Absent(v) && Raw(inner, v).Ok? {
      assert Raw(Datatype("Option", [inner]), v) == Ok([1] + Raw(inner, v).value);
      assert ([1] + Raw(inner, v).value)[0] == 1;
    }
  }

  /** ... so a present list that holds one absent Option is lost. */
  lemma PresentListLost()
    ensures var inner := Vector(Datatype("Option", [Scalar("u8")]));
      && Raw(inner, VList([VNone])) == Ok([1, 0])
      && Raw(Datatype("Option", [inner]), VList([VNone])) == Raw(Datatype("Option", [inner]), VNone)
  {
    var t := Datatype("Option", [Scalar("u8")]);
    assert Raw(t, VNone) == Ok([0]);
    EachIs(ElementEncoder(t), [VNone], [[0]]);
    assert Flat([[0]]) == [0];
    assert Uleb(1) + [0] == [1, 0];
  }

  /** A bytes object for a vector whose elements are not scalars is not split into elements: its
      encoding can be a proper prefix of a list's. */
  lemma UnsplitBytesNotPrefixFree()
    ensures var t := Vector(Vector(Scalar("u8")));
      && Raw(t, VBytes([1])) == Ok([1, 1])
      && Raw(t, VList([VBytes([5])])) == Ok([1, 1, 5])
  {
    var inner := Vector(Scalar("u8"));
    assert Uleb(1) + [5] == [1, 5];
    EachIs(ElementEncoder(inner), [VBytes([5])], [[1, 5]]);
    assert Flat([[1, 5]]) == [1, 5];
    assert Uleb(1) + [1, 5] == [1, 1, 5] && Uleb(1) + [1] == [1, 1];
  }

  // ---- the bytes shortcut --------------------------------------------------

  function ChunkInts(b: bytes, width: nat): seq<Value>
    requires width > 0
  {
    MapSeq(Chunks(b, width), (c: bytes) => VInt(FromLe(c)))
  }

  lemma OneChunkOff(width: nat, count: nat)
    requires count > 0
    ensures count * width - width == (count - 1) * width >= 0
  {
  }

  lemma {:induction false} ChunksCover(b: bytes, width: nat, count: nat, cut: nat)
    requires width > 0 && cut == count * width && cut <= |b| < cut + width
    ensures |Chunks(b, width)| == count && Flat(Chunks(b, width)) == b[..cut]
    decreases count
  {
    if count > 0 {
      OneChunkOff(width, count);
      ChunksCover(b[width..], width, count - 1, cut - width);
      ChunkAndRest(b, width, cut, b[..width], b[width..]);
    }
  }

  lemma ChunkAndRest(b: bytes, width: nat, cut: nat, chunk: bytes, later: bytes)
    requires width > 0 && b == chunk + later && |chunk| == width <= cut <= |b|
    requires Flat(Chunks(later, width)) == later[..cut - width]
    ensures |Chunks(b, width)| == 1 + |Chunks(later, width)| && Flat(Chunks(b, width)) == b[..cut]
  {
    FirstChunk(b, width, chunk, later);
    assert ([chunk] + Chunks(later, width))[1..] == Chunks(later, width);
    assert b[..cut] == chunk + later[..cut - width];
  }

  lemma ChunkEncodes(name: string, c: bytes)
    requires IntWidth(name) == Some(|c|)
    ensures RawScalar(VInt(FromLe(c)), name) == Ok(c)
  {
    ToFromLe(c);
  }

  /** The list path on integers whose encodings are the chunks. */
  lemma ChunkListEncodes(name: string, b: bytes, w: nat)
    requires IntWidth(name) == Some(w)
    ensures Listed(ElementEncoder(Scalar(name)), ChunkInts(b, w)) == Ok(Uleb(|Chunks(b, w)|) + Flat(Chunks(b, w)))
  {
    var chunks, ints := Chunks(b, w), ChunkInts(b, w);
    forall i | 0 <= i < |chunks| ensures ElementEncoder(Scalar(name))(ints[i]) == Ok(chunks[i]) {
      assert chunks[i] in chunks;
      ChunkEncodes(name, chunks[i]);
    }
    EachIs(ElementEncoder(Scalar(name)), ints, chunks);
  }

  lemma ChunkBytesEncode(name: string, b: bytes, w: nat)
    requires IntWidth(name) == Some(w)
    ensures RawBytes(Scalar(name), b) == Ok(Uleb(|Chunks(b, w)|) + Flat(Chunks(b, w)))
  {
    var chunks := Chunks(b, w);
    if name == "u8" {
      ChunksCover(b, 1, |b|, |b|);
      assert b[..|b|] == b;
    } else {
      forall i | 0 <= i < |chunks| ensures ChunkEncoder(name)(chunks[i]) == Ok(chunks[i]) {
        assert chunks[i] in chunks;
        ChunkEncodes(name, chunks[i]);
      }
      EachIs(ChunkEncoder(name), chunks, chunks);
    }
  }

  lemma VectorOfBytes(inner: MoveType, b: bytes, r: Result<bytes>)
    requires r == RawBytes(inner, b)
    ensures Raw(Vector(inner), VBytes(b)) == r
  {
  }

  lemma VectorOfList(inner: MoveType, xs: seq<Value>, r: Result<bytes>)
    requires r == Listed(ElementEncoder(inner), xs)
    ensures Raw(Vector(inner), VList(xs)) == r
  {
  }

  /** Raw bytes given for a vector of integers: the payload is the input cut to a multiple of the
      width, and the same bytes come from the list of its little-endian chunks. */
  lemma BytesShortcut(name: string, b: bytes, w: nat, count: nat, cut: nat)
    requires IntWidth(name) == Some(w) && count == |b| / w && cut == |b| - |b| % w
    ensures Raw(Vector(Scalar(name)), VBytes(b)) == Ok(Uleb(count) + b[..cut])
    ensures Raw(Vector(Scalar(name)), VList(ChunkInts(b, w))) == Ok(Uleb(count) + b[..cut])
  {
    ChunksCover(b, w, count, cut);
    ChunkBytesEncode(name, b, w);
    ChunkListEncodes(name, b, w);
    VectorOfBytes(Scalar(name), b, Ok(Uleb(count) + b[..cut]));
    VectorOfList(Scalar(name), ChunkInts(b, w), Ok(Uleb(count) + b[..cut]));
  }
}
