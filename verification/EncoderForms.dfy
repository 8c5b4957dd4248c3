// What the bytes of the argument encoder stand for: the decoder that the type drives reads from them the
// plain form of the value, for every accepted value that has one.

module EncoderForms {
  import opened Base
  import opened LittleEndian
  import opened Uleb128
  import opened Encoder
  import opened EncoderLaws
  import Utf8

  // ---- plain forms ---------------------------------------------------------

  /** The size of an integer type in bytes. */
  function Size(name: string): nat {
    if name == "u8" then 1
    else if name == "u16" then 2
    else if name == "u32" then 4
    else if name == "u64" then 8
    else if name == "u128" then 16
    else if name == "u256" then 32
    else 0
  }

  predicate IsTrue(v: Value) {
    match v
    case VNone => false
    case VBool(b) => b
    case VInt(n) => n != 0
    case VText(s) => |s| > 0
    case VBytes(b) => |b| > 0
    case VList(xs) => |xs| > 0
    case VTuple(_, _) => true
    case VDict(xs) => |xs| > 0
  }

  /** An address, padded and in lower case. */
  function AddressForm(v: Value): Value {
    var s := match v case VText(s) => s case VBytes(b) => MapSeq(b, (x: byte) => x as char) case _ => "";
    if ParseAddress(s).Some? then VText(PrintAddress(ParseAddress(s).value)) else v
  }

  /** An integer for a bool where an integer is wanted, a bool for anything where a bool is. */
  function ScalarForm(name: string, v: Value): Value {
    if Size(name) > 0 then (if v.VBool? then VInt(if v.b then 1 else 0) else v)
    else if name == "bool" then VBool(IsTrue(v))
    else if name == "address" || name == "ID" || name == "UID" then AddressForm(v)
    else v
  }

  /** The elements that a bytes object stands for: little-endian integers, or bools. */
  function BytesForm(name: string, b: bytes): seq<Value> {
    if Size(name) > 0 then
      seq(|b| / Size(name), i requires 0 <= i < |b| / Size(name) => VInt(FromLe(Cut(b, i, Size(name)))))
    else seq(|b|, i requires 0 <= i < |b| => VBool(b[i] != 0))
  }

  /** The `i`-th piece of `width` bytes. */
  function Cut(b: bytes, i: nat, width: nat): bytes {
    if i * width + width <= |b| then b[i * width..i * width + width] else []
  }

  /** The two values that a pair holds: a tuple; a list, text or bytes object of two; or a dict of two, which
      yields its keys. */
  function Halves(p: Value): (Value, Value) {
    match p
    case VTuple(x, y) => (x, y)
    case VList(xs) => if |xs| == 2 then (xs[0], xs[1]) else (p, p)
    case VBytes(b) => if |b| == 2 then (VInt(b[0]), VInt(b[1])) else (p, p)
    case VText(s) => if |s| == 2 then (VText([s[0]]), VText([s[1]])) else (p, p)
    case VDict(xs) => if |xs| == 2 && xs[0].VTuple? && xs[1].VTuple? then (xs[0].first, xs[1].first) else (p, p)
    case _ => (p, p)
  }

  /** The plain form of a value: lists for texts, bytes objects and dicts, None for what an Option takes for
      absent, and scalars as above. */
  function Form(t: MoveType, v: Value): Value
    decreases t, 0
  {
    match t
    case Scalar(name) => ScalarForm(name, v)
    case Vector(inner) =>
      (match v
       case VList(xs) => VList(MapSeq(xs, Former(inner)))
       case VText(s) => if inner.Scalar? then VList(BytesForm(inner.name, Utf8.Encode(s))) else v
       case VBytes(b) => if inner.Scalar? then VList(BytesForm(inner.name, b)) else v
       case _ => v)
    case Datatype(name, params) =>
      if name == "Option" then
        if v == VNone || v == VList([VNone]) || params == [] then VNone else Form(params[0], v)
      else if name == "ID" || name == "UID" then AddressForm(v)
      else if name == "VecMap" && |params| >= 2 then
        VList(MapSeq(if v.VDict? then v.items else if v.VList? then v.elems else [], PairFormer(params)))
      else if name == "VecSet" && params != [] then
        VList(MapSeq(if v.VList? then v.elems else [], Former(params[0])))
      else v
    case TypeParameter(_) => v
  }

  function Former(t: MoveType): Value -> Value
    decreases t, 1
  {
    (v: Value) => Form(t, v)
  }

  function PairForm(params: seq<MoveType>, p: Value): Value
    requires |params| >= 2
    decreases params, 0
  {
    VTuple(Form(params[0], Halves(p).0), Form(params[1], Halves(p).1))
  }

  function PairFormer(params: seq<MoveType>): Value -> Value
    requires |params| >= 2
    decreases params, 1
  {
    (p: Value) => PairForm(params, p)
  }

  /** Nowhere in the value is a text or a bytes object given for a vector whose elements are no scalars: these
      are not taken apart, and have no plain form. */
  predicate Formed(t: MoveType, v: Value)
    decreases t, 0
  {
    match t
    case Vector(inner) => if v.VList? then AllPlain(IsFormed(inner), v.elems) else inner.Scalar?
    case Datatype(name, params) =>
      if name == "Option" then v == VNone || v == VList([VNone]) || params == [] || Formed(params[0], v)
      else if name == "VecMap" then
        |params| < 2
        || AllPlain(PairIsFormed(params), if v.VDict? then v.items else if v.VList? then v.elems else [])
      else name == "VecSet" && params != [] && v.VList? ==> AllPlain(IsFormed(params[0]), v.elems)
    case _ => true
  }

  function IsFormed(t: MoveType): Value -> bool
    decreases t, 1
  {
    (v: Value) => Formed(t, v)
  }

  predicate PairFormed(params: seq<MoveType>, p: Value)
    requires |params| >= 2
    decreases params, 0
  {
    Formed(params[0], Halves(p).0) && Formed(params[1], Halves(p).1)
  }

  function PairIsFormed(params: seq<MoveType>): Value -> bool
    requires |params| >= 2
    decreases params, 1
  {
    (p: Value) => PairFormed(params, p)
  }

  // ---- integers ------------------------------------------------------------

  /** The sizes of the integer types, and the numbers that fit. */
  lemma IntegerSizes(name: string, n: int)
    ensures Raw(Scalar("u8"), VInt(n)).Ok? <==> 0 <= n < 0x100
    ensures Raw(Scalar("u16"), VInt(n)).Ok? <==> 0 <= n < 0x1_0000
    ensures Raw(Scalar("u32"), VInt(n)).Ok? <==> 0 <= n < 0x1_0000_0000
    ensures Raw(Scalar("u64"), VInt(n)).Ok? <==> 0 <= n < 0x1_0000_0000_0000_0000
    ensures Raw(Scalar("u128"), VInt(n)).Ok? <==> 0 <= n < 0x1_0000_0000_0000_0000_0000_0000_0000_0000
    ensures Raw(Scalar("u256"), VInt(n)).Ok? <==>
      0 <= n < 0x1_0000_0000_0000_0000_0000_0000_0000_0000_0000_0000_0000_0000_0000_0000_0000_0000
    ensures Size(name) > 0 && Raw(Scalar(name), VInt(n)).Ok? ==>
      |Raw(Scalar(name), VInt(n)).value| == Size(name) && FromLe(Raw(Scalar(name), VInt(n)).value) == n
  {
    Powers();
    Fits("u8", n);
    Fits("u16", n);
    Fits("u32", n);
    Fits("u64", n);
    Fits("u128", n);
    Fits("u256", n);
    if Size(name) > 0 { Fits(name, n); }
  }

  lemma Fits(name: string, n: int)
    requires Size(name) > 0
    ensures Raw(Scalar(name), VInt(n)).Ok? <==> 0 <= n < Pow256(Size(name))
    ensures Raw(Scalar(name), VInt(n)).Ok? ==>
      |Raw(Scalar(name), VInt(n)).value| == Size(name) && FromLe(Raw(Scalar(name), VInt(n)).value) == n
  {
    WidthIsSize(name);
    if 0 <= n < Pow256(Size(name)) { FromToLe(n, Size(name)); }
  }

  lemma Powers()
    ensures Pow256(1) == 0x100 && Pow256(2) == 0x1_0000 && Pow256(4) == 0x1_0000_0000
    ensures Pow256(8) == 0x1_0000_0000_0000_0000
    ensures Pow256(16) == 0x1_0000_0000_0000_0000_0000_0000_0000_0000
    ensures Pow256(32) == 0x1_0000_0000_0000_0000_0000_0000_0000_0000_0000_0000_0000_0000_0000_0000_0000_0000
  {
    PowerAdds(4, 4);
    PowerAdds(8, 8);
    PowerAdds(16, 16);
  }

  lemma {:induction false} PowerAdds(a: nat, b: nat)
    ensures Pow256(a + b) == Pow256(a) * Pow256(b)
  {
    if a > 0 {
      PowerAdds(a - 1, b);
      Regroup(Pow256(a - 1), Pow256(b));
    }
  }

  lemma Regroup(x: nat, y: nat)
    ensures 256 * (x * y) == 256 * x * y
  {
  }

  lemma WidthIsSize(name: string)
    ensures IntWidth(name) == if Size(name) > 0 then Some(Size(name)) else None
  {
  }

  // ---- reading -------------------------------------------------------------

  /** What is read from an accepted encoding, whatever follows. */
  predicate ReadsAs(enc: Result<bytes>, read: bytes -> Parsed, form: Value, s: bytes) {
    enc.Ok? ==> read(enc.value + s) == Some((form, s))
  }

  lemma IntReads(n: int, width: nat, s: bytes)
    ensures ReadsAs(RawInt(n, width), (data: bytes) => ReadInt(width, data), VInt(n), s)
  {
    IntSettled(n, width, VInt(n), s);
  }

  lemma AddressReads(v: Value, s: bytes)
    ensures ReadsAs(RawAddress(v), ReadAddress, AddressForm(v), s)
  {
    if RawAddress(v).Ok? {
      var a := RawAddress(v).value;
      assert |a| == 32 && (a + s)[..32] == a && (a + s)[32..] == s;
    }
  }

  lemma TextReadsAs(v: Value, s: bytes)
    ensures ReadsAs(RawText(v), ReadText, v, s)
  {
    if v.VText? { TextReads(v.s, Utf8.Encode(v.s), s); }
  }

  lemma BoolReads(v: Value, s: bytes)
    ensures ReadsAs(RawScalar(v, "bool"), ReadBool, VBool(IsTrue(v)), s)
  {
    var enc: bytes := [if v.Truthy() then 1 else 0];
    assert (enc + s)[1..] == s;
  }

  lemma ScalarReads(name: string, v: Value, s: bytes)
    ensures ReadsAs(RawScalar(v, name), (data: bytes) => ReadScalar(name, data), ScalarForm(name, v), s)
  {
    WidthIsSize(name);
    if Size(name) > 0 {
      if v.VInt? { IntReads(v.n, Size(name), s); }
      if v.VBool? { IntReads(if v.b then 1 else 0, Size(name), s); }
    } else if name == "bool" {
      BoolReads(v, s);
    } else if IsAddress(name) {
      AddressReads(v, s);
    } else {
      TextReadsAs(v, s);
    }
  }

  ghost predicate ReadsEach<T>(encode: T -> Result<bytes>, read: bytes -> Parsed, xs: seq<T>, forms: seq<Value>) {
    |forms| == |xs| && forall i, s: bytes :: 0 <= i < |xs| ==> ReadsAs(encode(xs[i]), read, forms[i], s)
  }

  lemma {:induction false} ManyRead<T>(encode: T -> Result<bytes>, read: bytes -> Parsed, xs: seq<T>,
                                       forms: seq<Value>, s: bytes)
    requires ReadsEach(encode, read, xs, forms) && Each(encode, xs).Ok?
    ensures ReadMany(read, Flat(Each(encode, xs).value) + s, |xs|) == Some((forms, s))
    decreases |xs|
  {
    if xs == [] {
      assert [] + s == s;
    } else {
      var e, more := encode(xs[0]).value, Each(encode, xs[1..]).value;
      assert Flat(Each(encode, xs).value) + s == e + (Flat(more) + s);
      assert ReadsAs(encode(xs[0]), read, forms[0], Flat(more) + s);
      forall i, s: bytes | 0 <= i < |xs[1..]| ensures ReadsAs(encode(xs[1..][i]), read, forms[1..][i], s) {
        assert ReadsAs(encode(xs[i + 1]), read, forms[i + 1], s);
      }
      ManyRead(encode, read, xs[1..], forms[1..], s);
      assert [forms[0]] + forms[1..] == forms;
    }
  }

  lemma ListReads<T>(encode: T -> Result<bytes>, read: bytes -> Parsed, xs: seq<T>, forms: seq<Value>, s: bytes)
    requires ReadsEach(encode, read, xs, forms)
    ensures ReadsAs(Listed(encode, xs), (data: bytes) => ReadList(read, data), VList(forms), s)
  {
    if Each(encode, xs).Ok? {
      var encs := Each(encode, xs).value;
      assert Uleb(|encs|) + Flat(encs) + s == Uleb(|xs|) + (Flat(encs) + s);
      LengthThen(|xs|, Flat(encs) + s);
      ManyRead(encode, read, xs, forms, s);
    }
  }

  // ---- bytes for a vector of scalars ---------------------------------------

  lemma {:induction false} ChunkIsCut(b: bytes, width: nat, i: nat)
    requires width > 0 && i < |Chunks(b, width)|
    ensures i * width + width <= |b| && Chunks(b, width)[i] == Cut(b, i, width)
    decreases i
  {
    if i > 0 {
      ChunkIsCut(b[width..], width, i - 1);
      NextCut(b, width, i, (i - 1) * width);
    } else {
      FirstCut(b, width);
    }
  }

  lemma FirstCut(b: bytes, width: nat)
    requires width <= |b|
    ensures 0 * width == 0 && Cut(b, 0, width) == b[..width]
  {
  }

  lemma NextCut(b: bytes, width: nat, i: nat, at: nat)
    requires i > 0 && at == (i - 1) * width && width <= |b| && at + width <= |b[width..]|
    ensures i * width + width <= |b| && Cut(b, i, width) == b[width..][at..at + width]
  {
    assert i * width == at + width;
  }

  lemma ChunkCount(b: bytes, width: nat)
    requires width > 0
    ensures |Chunks(b, width)| == |b| / width
  {
    ChunksCover(b, width, |b| / width, |b| - |b| % width);
  }

  lemma BytesFormIsChunks(name: string, b: bytes, w: nat)
    requires Size(name) == w > 0
    ensures BytesForm(name, b) == ChunkInts(b, w)
  {
    ChunkCount(b, w);
    forall i | 0 <= i < |b| / w ensures BytesForm(name, b)[i] == ChunkInts(b, w)[i] { ChunkIsCut(b, w, i); }
  }

  lemma ScalarElement(name: string, v: Value, s: bytes)
    requires Size(name) > 0 && v.VInt?
    ensures ReadsAs(ElementEncoder(Scalar(name))(v), Reader(Scalar(name)), v, s)
  {
    ScalarReads(name, v, s);
    assert ElementEncoder(Scalar(name))(v) == Raw(Scalar(name), v) == RawScalar(v, name);
    if RawScalar(v, name).Ok? {
      var data := RawScalar(v, name).value + s;
      assert Reader(Scalar(name))(data) == Read(Scalar(name), data) == ReadScalar(name, data);
    }
  }

  lemma IntegersRead(name: string, xs: seq<Value>, s: bytes)
    requires Size(name) > 0 && forall i :: 0 <= i < |xs| ==> xs[i].VInt?
    ensures ReadsAs(Listed(ElementEncoder(Scalar(name)), xs), (data: bytes) => ReadList(Reader(Scalar(name)), data),
                    VList(xs), s)
  {
    var read := Reader(Scalar(name));
    forall i, s: bytes | 0 <= i < |xs| ensures ReadsAs(ElementEncoder(Scalar(name))(xs[i]), read, xs[i], s) {
      ScalarElement(name, xs[i], s);
    }
    ListReads(ElementEncoder(Scalar(name)), read, xs, xs, s);
  }

  lemma BytesAreIntegers(name: string, b: bytes, xs: seq<Value>)
    requires Size(name) > 0 && xs == BytesForm(name, b)
    ensures RawBytes(Scalar(name), b) == Listed(ElementEncoder(Scalar(name)), xs)
  {
    WidthIsSize(name);
    BytesFormIsChunks(name, b, Size(name));
    ChunkBytesEncode(name, b, Size(name));
    ChunkListEncodes(name, b, Size(name));
  }

  lemma IntegerBytes(name: string, b: bytes, s: bytes)
    requires Size(name) > 0
    ensures ReadsAs(RawBytes(Scalar(name), b), (data: bytes) => ReadList(Reader(Scalar(name)), data),
                    VList(BytesForm(name, b)), s)
  {
    BytesAreIntegers(name, b, BytesForm(name, b));
    IntegersRead(name, BytesForm(name, b), s);
  }

  lemma BoolChunk(chunk: bytes, first: byte, s: bytes)
    requires chunk == [first]
    ensures ReadsAs(ChunkEncoder("bool")(chunk), Reader(Scalar("bool")), VBool(first != 0), s)
  {
    assert chunk[1..] == [] && FromLe(chunk) == first;
    BoolReads(VInt(first), s);
  }

  lemma BoolBytes(b: bytes, s: bytes)
    ensures ReadsAs(RawBytes(Scalar("bool"), b), (data: bytes) => ReadList(Reader(Scalar("bool")), data),
                    VList(BytesForm("bool", b)), s)
  {
    var read, chunks, forms := Reader(Scalar("bool")), Chunks(b, 1), BytesForm("bool", b);
    ChunkCount(b, 1);
    forall i, s: bytes | 0 <= i < |chunks| ensures ReadsAs(ChunkEncoder("bool")(chunks[i]), read, forms[i], s) {
      ChunkIsCut(b, 1, i);
      BoolChunk(chunks[i], b[i], s);
    }
    ListReads(ChunkEncoder("bool"), read, chunks, forms, s);
  }

  /** Bytes for other scalars are accepted only if there are none. */
  lemma OtherBytes(name: string, b: bytes, s: bytes)
    requires Size(name) == 0 && name != "bool"
    ensures ReadsAs(RawBytes(Scalar(name), b), (data: bytes) => ReadList(Reader(Scalar(name)), data),
                    VList(BytesForm(name, b)), s)
  {
    WidthIsSize(name);
    ChunkCount(b, 1);
    var chunks := Chunks(b, 1);
    if chunks == [] {
      ListReads(ChunkEncoder(name), Reader(Scalar(name)), chunks, [], s);
      assert BytesForm(name, b) == [];
    } else {
      assert ChunkEncoder(name)(chunks[0]).Err?;
    }
  }

  lemma ScalarBytes(name: string, b: bytes, s: bytes)
    ensures ReadsAs(RawBytes(Scalar(name), b), (data: bytes) => ReadList(Reader(Scalar(name)), data),
                    VList(BytesForm(name, b)), s)
  {
    if Size(name) > 0 { IntegerBytes(name, b, s); }
    else if name == "bool" { BoolBytes(b, s); }
    else { OtherBytes(name, b, s); }
  }

  // ---- every type ----------------------------------------------------------

  lemma {:induction false} ElementsRead(t: MoveType, xs: seq<Value>)
    requires AllPlain(IsFormed(t), xs)
    ensures ReadsEach(ElementEncoder(t), Reader(t), xs, MapSeq(xs, Former(t)))
    decreases t, 1
  {
    forall i, s: bytes | 0 <= i < |xs|
      ensures ReadsAs(ElementEncoder(t)(xs[i]), Reader(t), MapSeq(xs, Former(t))[i], s)
    {
      assert IsFormed(t)(xs[i]);
      FormReads(t, xs[i], s);
    }
  }

  lemma {:induction false} VectorReads(inner: MoveType, v: Value, s: bytes)
    requires Formed(Vector(inner), v)
    ensures ReadsAs(Raw(Vector(inner), v), Reader(Vector(inner)), Form(Vector(inner), v), s)
    decreases inner, 2
  {
    assert forall data :: Reader(Vector(inner))(data) == ReadList(Reader(inner), data);
    if v.VList? {
      ElementsRead(inner, v.elems);
      ListReads(ElementEncoder(inner), Reader(inner), v.elems, MapSeq(v.elems, Former(inner)), s);
    } else if v.VText? {
      ScalarBytes(inner.name, Utf8.Encode(v.s), s);
    } else if v.VBytes? {
      ScalarBytes(inner.name, v.data, s);
    }
  }

  lemma TwoRead(first: bytes -> Parsed, second: bytes -> Parsed, k: bytes, v: bytes, x: Value, y: Value, s: bytes)
    requires first(k + (v + s)) == Some((x, v + s)) && second(v + s) == Some((y, s))
    ensures ReadTwo(first, second, k + v + s) == Some((VTuple(x, y), s))
  {
    assert k + v + s == k + (v + s);
  }

  lemma {:induction false} PairReads(params: seq<MoveType>, p: Value, s: bytes)
    requires |params| >= 2 && PairFormed(params, p)
    ensures ReadsAs(RawPair(params, p), PairReader(params), PairForm(params, p), s)
    decreases params, 0
  {
    if RawPair(params, p).Ok? {
      var (x, y) := Unpack(p).value;
      assert Halves(p) == (x, y);
      var key, value := Raw(params[0], x).value, Raw(params[1], y).value;
      FormReads(params[0], x, value + s);
      FormReads(params[1], y, s);
      TwoRead(Reader(params[0]), Reader(params[1]), key, value, Form(params[0], x), Form(params[1], y), s);
    }
  }

  lemma {:induction false} VecMapReads(params: seq<MoveType>, v: Value, s: bytes)
    requires Formed(Datatype("VecMap", params), v)
    ensures ReadsAs(Raw(Datatype("VecMap", params), v), Reader(Datatype("VecMap", params)),
                    Form(Datatype("VecMap", params), v), s)
    decreases params, 2
  {
    if |params| >= 2 && (v.VList? || v.VDict?) {
      var pairs, read := if v.VDict? then v.items else v.elems, PairReader(params);
      forall i, s: bytes | 0 <= i < |pairs|
        ensures ReadsAs(PairEncoder(params)(pairs[i]), read, MapSeq(pairs, PairFormer(params))[i], s)
      {
        assert PairIsFormed(params)(pairs[i]);
        PairReads(params, pairs[i], s);
      }
      ListReads(PairEncoder(params), read, pairs, MapSeq(pairs, PairFormer(params)), s);
      assert forall data :: Reader(Datatype("VecMap", params))(data) == ReadList(read, data);
    }
  }

  lemma {:induction false} VecSetReads(params: seq<MoveType>, v: Value, s: bytes)
    requires Formed(Datatype("VecSet", params), v)
    ensures ReadsAs(Raw(Datatype("VecSet", params), v), Reader(Datatype("VecSet", params)),
                    Form(Datatype("VecSet", params), v), s)
    decreases params, 2
  {
    if params != [] && v.VList? {
      ElementsRead(params[0], v.elems);
      ListReads(ElementEncoder(params[0]), Reader(params[0]), v.elems, MapSeq(v.elems, Former(params[0])), s);
      assert forall data :: Reader(Datatype("VecSet", params))(data) == ReadList(Reader(params[0]), data);
    }
  }

  lemma AbsentReads(read: bytes -> Parsed, s: bytes)
    ensures ReadOption(read, [0] + s) == Some((VNone, s))
  {
    assert ([0] + s)[1..] == s;
  }

  lemma PresentReads(read: bytes -> Parsed, payload: bytes, form: Value, s: bytes)
    requires read(payload + s) == Some((form, s))
    ensures ReadOption(read, [1] + payload + s) == Some((form, s))
  {
    assert ([1] + payload + s)[1..] == payload + s;
  }

  lemma {:induction false} OptionReads(params: seq<MoveType>, v: Value, s: bytes)
    requires Formed(Datatype("Option", params), v)
    ensures ReadsAs(Raw(Datatype("Option", params), v), Reader(Datatype("Option", params)),
                    Form(Datatype("Option", params), v), s)
    decreases params, 2
  {
    var t := Datatype("Option", params);
    var enc := Raw(t, v);
    var read := if params == [] then NoReader() else Reader(params[0]);
    assert forall data :: Reader(t)(data) == ReadOption(read, data);
    if Absent(v) {
      AbsentReads(read, s);
    } else if enc.Ok? {
      FormReads(params[0], v, s);
      PresentReads(read, Raw(params[0], v).value, Form(params[0], v), s);
    }
  }

  /** The decoder that the type drives reads the plain form of the value, and leaves what follows. */
  lemma {:induction false} FormReads(t: MoveType, v: Value, s: bytes)
    requires Formed(t, v)
    ensures ReadsAs(Raw(t, v), Reader(t), Form(t, v), s)
    decreases t, 0
  {
    match t
    case Scalar(name) => ScalarReads(name, v, s);
    case Vector(inner) => VectorReads(inner, v, s);
    case Datatype(name, params) =>
      if name == "Option" { OptionReads(params, v, s); }
      else if name == "VecMap" { VecMapReads(params, v, s); }
      else if name == "VecSet" { VecSetReads(params, v, s); }
      else if name == "String" { TextReadsAs(v, s); }
      else if name == "ID" || name == "UID" { AddressReads(v, s); }
    case TypeParameter(_) =>
  }

  /** What an encoding stands for: the type reads the value's plain form back from it. */
  lemma DecodesToForm(t: MoveType, v: Value, s: bytes)
    requires Raw(t, v).Ok? && Formed(t, v)
    ensures Read(t, Raw(t, v).value + s) == Some((Form(t, v), s))
  {
    FormReads(t, v, s);
    assert Reader(t)(Raw(t, v).value + s) == Read(t, Raw(t, v).value + s);
  }

  /** A text or bytes object for a vector whose elements are no scalars is written as it is, behind its
      length in bytes; any other value that is no list is refused. */
  lemma UntakenApart(inner: MoveType, v: Value)
    requires !inner.Scalar? && !v.VList?
    ensures v.VBytes? ==> Raw(Vector(inner), v) == Ok(Uleb(|v.data|) + v.data)
    ensures v.VText? ==> Raw(Vector(inner), v) == Ok(Uleb(|Utf8.Encode(v.s)|) + Utf8.Encode(v.s))
    ensures !v.VBytes? && !v.VText? ==> Raw(Vector(inner), v).Err?
  {
  }

  // ---- which values are accepted -------------------------------------------

  predicate AddressTaken(v: Value) {
    match v
    case VText(s) => ParseAddress(s).Some?
    case VBytes(b) => |b| >= 64 && ParseAddress(MapSeq(b, (x: byte) => x as char)).Some?
    case _ => false
  }

  predicate ScalarTaken(name: string, v: Value) {
    if Size(name) > 0 then v.VBool? || (v.VInt? && 0 <= v.n < Pow256(Size(name)))
    else if name == "bool" then true
    else if name == "address" || name == "ID" || name == "UID" then AddressTaken(v)
    else name == "String" && v.VText?
  }

  /** Bytes are taken for integers and bools, and for vectors and datatypes as they are; for other scalars
      only if there are none. */
  predicate BytesTaken(inner: MoveType, b: bytes) {
    inner.Scalar? && Size(inner.name) == 0 && inner.name != "bool" ==> b == []
  }

  predicate IsPair(p: Value) {
    match p
    case VTuple(_, _) => true
    case VList(xs) => |xs| == 2
    case VBytes(b) => |b| == 2
    case VText(s) => |s| == 2
    case VDict(xs) => |xs| == 2 && xs[0].VTuple? && xs[1].VTuple?
    case _ => false
  }

  predicate Taken(t: MoveType, v: Value)
    decreases t, 0
  {
    match t
    case Scalar(name) => ScalarTaken(name, v)
    case Vector(inner) =>
      (match v
       case VList(xs) => AllPlain(Taker(inner), xs)
       case VText(s) => BytesTaken(inner, Utf8.Encode(s))
       case VBytes(b) => BytesTaken(inner, b)
       case _ => false)
    case Datatype(name, params) =>
      if name == "Option" then v == VNone || v == VList([VNone]) || (params != [] && Taken(params[0], v))
      else if name == "String" then v.VText?
      else if name == "ID" || name == "UID" then AddressTaken(v)
      else if name == "VecMap" then
        && (v.VList? || v.VDict?) && |params| >= 2
        && AllPlain(PairTaker(params), if v.VList? then v.elems else v.items)
      else name == "VecSet" && params != [] && v.VList? && AllPlain(Taker(params[0]), v.elems)
    case TypeParameter(_) => false
  }

  function Taker(t: MoveType): Value -> bool
    decreases t, 1
  {
    (v: Value) => Taken(t, v)
  }

  predicate PairTaken(params: seq<MoveType>, p: Value)
    requires |params| >= 2
    decreases params, 0
  {
    IsPair(p) && Taken(params[0], Halves(p).0) && Taken(params[1], Halves(p).1)
  }

  function PairTaker(params: seq<MoveType>): Value -> bool
    requires |params| >= 2
    decreases params, 1
  {
    (p: Value) => PairTaken(params, p)
  }

  lemma {:induction false} EachSucceeds<T>(encode: T -> Result<bytes>, xs: seq<T>)
    ensures Listed(encode, xs).Ok? <==> forall i :: 0 <= i < |xs| ==> encode(xs[i]).Ok?
  {
    if xs != [] {
      EachSucceeds(encode, xs[1..]);
      assert forall i :: 0 <= i < |xs[1..]| ==> xs[1..][i] == xs[i + 1];
      forall i | 0 <= i < |xs| && encode(xs[0]).Ok? && forall k :: 0 <= k < |xs[1..]| ==> encode(xs[1..][k]).Ok?
        ensures encode(xs[i]).Ok?
      {
        if i > 0 { assert xs[i] == xs[1..][i - 1]; }
      }
    }
  }

  lemma ScalarTakenExactly(name: string, v: Value)
    ensures RawScalar(v, name).Ok? <==> ScalarTaken(name, v)
  {
    WidthIsSize(name);
    if Size(name) > 0 { BitFits(Size(name)); }
  }

  lemma BitFits(width: nat)
    requires width > 0
    ensures Pow256(width) > 1
  {
    PowerAdds(1, width - 1);
    PowerPositive(width - 1);
  }

  lemma {:induction false} PowerPositive(width: nat)
    ensures Pow256(width) > 0
  {
    if width > 0 { PowerPositive(width - 1); }
  }

  lemma BytesTakenExactly(inner: MoveType, b: bytes)
    ensures RawBytes(inner, b).Ok? <==> BytesTaken(inner, b)
  {
    if inner.Scalar? && inner.name != "u8" { ChunksTaken(inner.name, b, Chunks(b, ChunkWidth(inner.name))); }
  }

  lemma ChunkTaken(name: string, c: bytes)
    requires |c| == ChunkWidth(name)
    ensures ChunkEncoder(name)(c).Ok? <==> Size(name) > 0 || name == "bool"
  {
    WidthIsSize(name);
    ToFromLe(c);
  }

  lemma SomeChunk(name: string, b: bytes)
    ensures Size(name) == 0 ==> |Chunks(b, ChunkWidth(name))| == |b|
  {
    WidthIsSize(name);
    ChunkCount(b, ChunkWidth(name));
  }

  lemma ChunksTaken(name: string, b: bytes, chunks: seq<bytes>)
    requires chunks == Chunks(b, ChunkWidth(name))
    ensures Listed(ChunkEncoder(name), chunks).Ok? <==> Size(name) > 0 || name == "bool" || b == []
  {
    SomeChunk(name, b);
    EachSucceeds(ChunkEncoder(name), chunks);
    forall i | 0 <= i < |chunks|
      ensures ChunkEncoder(name)(chunks[i]).Ok? <==> Size(name) > 0 || name == "bool"
    {
      assert chunks[i] in chunks;
      ChunkTaken(name, chunks[i]);
    }
    if Size(name) == 0 && name != "bool" && b != [] { assert !ChunkEncoder(name)(chunks[0]).Ok?; }
  }

  lemma {:induction false} ElementsTaken(t: MoveType, xs: seq<Value>)
    ensures Listed(ElementEncoder(t), xs).Ok? <==> AllPlain(Taker(t), xs)
    decreases t, 1
  {
    EachSucceeds(ElementEncoder(t), xs);
    forall i | 0 <= i < |xs| ensures ElementEncoder(t)(xs[i]).Ok? <==> Taker(t)(xs[i]) { TakenExactly(t, xs[i]); }
    if AllPlain(Taker(t), xs) {
      forall i | 0 <= i < |xs| ensures ElementEncoder(t)(xs[i]).Ok? { assert Taker(t)(xs[i]); }
    }
    if forall i :: 0 <= i < |xs| ==> ElementEncoder(t)(xs[i]).Ok? {
      forall i | 0 <= i < |xs| ensures Taker(t)(xs[i]) { assert ElementEncoder(t)(xs[i]).Ok?; }
    }
  }

  lemma {:induction false} PairTakenExactly(params: seq<MoveType>, p: Value)
    requires |params| >= 2
    ensures RawPair(params, p).Ok? <==> PairTaken(params, p)
    decreases params, 0
  {
    assert Unpack(p).Ok? <==> IsPair(p);
    if IsPair(p) {
      var (x, y) := Unpack(p).value;
      assert Halves(p) == (x, y);
      TakenExactly(params[0], x);
      TakenExactly(params[1], y);
    }
  }

  lemma {:induction false} PairsTaken(params: seq<MoveType>, ps: seq<Value>)
    requires |params| >= 2
    ensures Listed(PairEncoder(params), ps).Ok? <==> AllPlain(PairTaker(params), ps)
    decreases params, 1
  {
    EachSucceeds(PairEncoder(params), ps);
    forall i | 0 <= i < |ps| ensures PairEncoder(params)(ps[i]).Ok? <==> PairTaker(params)(ps[i]) {
      PairTakenExactly(params, ps[i]);
    }
    if AllPlain(PairTaker(params), ps) {
      forall i | 0 <= i < |ps| ensures PairEncoder(params)(ps[i]).Ok? { assert PairTaker(params)(ps[i]); }
    }
    if forall i :: 0 <= i < |ps| ==> PairEncoder(params)(ps[i]).Ok? {
      forall i | 0 <= i < |ps| ensures PairTaker(params)(ps[i]) { assert PairEncoder(params)(ps[i]).Ok?; }
    }
  }

  /** Which values the encoder accepts. */
  lemma {:induction false} TakenExactly(t: MoveType, v: Value)
    ensures Raw(t, v).Ok? <==> Taken(t, v)
    decreases t, 0
  {
    match t
    case Scalar(name) => ScalarTakenExactly(name, v);
    case Vector(inner) =>
      if v.VList? { ElementsTaken(inner, v.elems); }
      else if v.VText? { BytesTakenExactly(inner, Utf8.Encode(v.s)); }
      else if v.VBytes? { BytesTakenExactly(inner, v.data); }
    case Datatype(name, params) => DatatypeTaken(name, params, v);
    case TypeParameter(_) =>
  }

  lemma {:induction false} DatatypeTaken(name: string, params: seq<MoveType>, v: Value)
    ensures Raw(Datatype(name, params), v).Ok? <==> Taken(Datatype(name, params), v)
    decreases params, 2
  {
    if name == "Option" {
      if params != [] { TakenExactly(params[0], v); }
    } else if name == "VecMap" {
      if |params| >= 2 && (v.VList? || v.VDict?) { PairsTaken(params, if v.VList? then v.elems else v.items); }
    } else if name == "VecSet" {
      if params != [] && v.VList? { ElementsTaken(params[0], v.elems); }
    }
  }
}
