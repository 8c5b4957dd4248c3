// When no encoding of the argument encoder is a proper prefix of another: for which values, and for
// which types.

module EncoderPrefixes {
  import opened Base
  import opened LittleEndian
  import opened Uleb128
  import opened Encoder
  import opened EncoderLaws
  import Utf8

  // ---- what a type accepts -------------------------------------------------

  predicate Known(name: string) {
    IntWidth(name).Some? || name == "bool" || IsAddress(name) || name == "String"
  }

  /** Some value that an Option takes for present is accepted. */
  predicate Fills(t: MoveType) {
    match t
    case Scalar(name) => Known(name)
    case Vector(_) => true
    case Datatype(name, params) =>
      if name == "Option" then params != [] && Fills(params[0])
      else if name == "VecMap" then |params| >= 2
      else if name == "VecSet" then params != []
      else name == "String" || name == "ID" || name == "UID"
    case TypeParameter(_) => false
  }

  /** Some value is accepted. */
  predicate Accepting(t: MoveType) {
    Fills(t) || (t.Datatype? && t.name == "Option")
  }

  /** Some encoding is longer than one byte. */
  predicate Long(t: MoveType) {
    match t
    case Scalar(name) => (IntWidth(name).Some? && IntWidth(name).value > 1) || IsAddress(name) || name == "String"
    case Vector(inner) => inner.Scalar? ==> Known(inner.name)
    case Datatype(name, params) =>
      if name == "Option" then params != [] && Fills(params[0])
      else if name == "VecMap" then |params| >= 2 && Accepting(params[0]) && Accepting(params[1])
      else if name == "VecSet" then params != [] && Accepting(params[0])
      else name == "String" || name == "ID" || name == "UID"
    case TypeParameter(_) => false
  }

  /** A vector whose bytes may run over its elements is part of an accepted value: its elements are
      no scalars, and some of them are longer than one byte. */
  predicate Clashes(t: MoveType) {
    match t
    case Vector(inner) => !inner.Scalar? && Long(inner)
    case Datatype(name, params) =>
      if name == "Option" || name == "VecSet" then params != [] && Clashes(params[0])
      else
        && name == "VecMap" && |params| >= 2
        && ((Clashes(params[0]) && Accepting(params[1])) || (Accepting(params[0]) && Clashes(params[1])))
    case _ => false
  }

  lemma {:induction false} AcceptedFills(t: MoveType, v: Value)
    requires Raw(t, v).Ok? && !Absent(v)
    ensures Fills(t)
  {
    if t.Datatype? && t.name == "Option" { AcceptedFills(t.params[0], v); }
  }

  lemma AcceptedAccepting(t: MoveType, v: Value)
    requires Raw(t, v).Ok?
    ensures Accepting(t)
  {
    if !Absent(v) { AcceptedFills(t, v); }
  }

  lemma FirstEncodes<T>(encode: T -> Result<bytes>, xs: seq<T>)
    requires Listed(encode, xs).Ok? && xs != []
    ensures encode(xs[0]).Ok?
  {
  }

  lemma NothingListed<T>(encode: T -> Result<bytes>, xs: seq<T>)
    requires xs == []
    ensures Listed(encode, xs) == Ok([0])
  {
    assert Uleb(0) + [] == [0];
  }

  lemma UnknownScalar(name: string, v: Value)
    requires !Known(name)
    ensures ElementEncoder(Scalar(name))(v).Err?
  {
    assert Raw(Scalar(name), v) == RawScalar(v, name);
  }

  /** A vector of an unknown scalar has no elements. */
  lemma UnknownVector(name: string, v: Value)
    requires !Known(name) && Raw(Vector(Scalar(name)), v).Ok?
    ensures Raw(Vector(Scalar(name)), v) == Ok([0])
  {
    if v.VList? {
      if v.elems != [] { UnknownScalar(name, v.elems[0]); } else {
        NothingListed(ElementEncoder(Scalar(name)), v.elems);
      }
    } else {
      var chunks := Chunks(if v.VText? then Utf8.Encode(v.s) else v.data, ChunkWidth(name));
      if chunks == [] { NothingListed(ChunkEncoder(name), chunks); }
    }
  }

  lemma VecMapAccepts(params: seq<MoveType>, pairs: seq<Value>)
    requires |params| >= 2 && Listed(PairEncoder(params), pairs).Ok?
    requires !Accepting(params[0]) || !Accepting(params[1])
    ensures pairs == []
  {
    if pairs != [] {
      FirstEncodes(PairEncoder(params), pairs);
      assert RawPair(params, pairs[0]).Ok?;
      var (x, y) := Unpack(pairs[0]).value;
      AcceptedAccepting(params[0], x);
      AcceptedAccepting(params[1], y);
    }
  }

  lemma NotLong(t: MoveType, v: Value)
    requires Raw(t, v).Ok? && !Long(t)
    ensures |Raw(t, v).value| == 1
  {
    match t
    case Scalar(name) =>
    case Vector(inner) => UnknownVector(inner.name, v);
    case Datatype(name, params) =>
      if name == "Option" {
        if !Absent(v) { AcceptedFills(params[0], v); }
      } else if name == "VecMap" {
        var pairs := if v.VList? then v.elems else v.items;
        VecMapAccepts(params, pairs);
        NothingListed(PairEncoder(params), pairs);
      } else {
        if v.elems != [] {
          FirstEncodes(ElementEncoder(params[0]), v.elems);
          AcceptedAccepting(params[0], v.elems[0]);
        }
        NothingListed(ElementEncoder(params[0]), v.elems);
      }
  }

  // ---- where an encoding ends ----------------------------------------------

  function Drop(n: nat, data: bytes): Option<bytes> {
    if |data| < n then None else Some(data[n..])
  }

  function SkipText(data: bytes): Option<bytes> {
    match ReadLength(data)
    case None => None
    case Some((n, rest)) => Drop(n, rest)
  }

  function SkipScalar(name: string, data: bytes): Option<bytes> {
    if IntWidth(name).Some? then Drop(IntWidth(name).value, data)
    else if name == "bool" then Drop(1, data)
    else if IsAddress(name) then Drop(32, data)
    else SkipText(data)
  }

  function SkipMany(skip: bytes -> Option<bytes>, data: bytes, count: nat): Option<bytes>
    decreases count
  {
    if count == 0 then Some(data)
    else
      match skip(data)
      case None => None
      case Some(rest) => SkipMany(skip, rest, count - 1)
  }

  function SkipList(skip: bytes -> Option<bytes>, data: bytes): Option<bytes> {
    match ReadLength(data)
    case None => None
    case Some((n, rest)) => SkipMany(skip, rest, n)
  }

  function SkipOption(skip: bytes -> Option<bytes>, data: bytes): Option<bytes> {
    if data == [] then None else if data[0] == 0 then Some(data[1..]) else skip(data[1..])
  }

  function SkipTwo(first: bytes -> Option<bytes>, second: bytes -> Option<bytes>, data: bytes): Option<bytes> {
    match first(data)
    case None => None
    case Some(rest) => second(rest)
  }

  /** What follows the encoding at the front of the data. */
  function Skip(t: MoveType, data: bytes): Option<bytes>
    decreases t, 0
  {
    match t
    case Scalar(name) => SkipScalar(name, data)
    case Vector(inner) => SkipList(ElementSkipper(inner), data)
    case Datatype(name, params) =>
      if name == "Option" then
        if params == [] then Drop(1, data) else SkipOption(Skipper(params[0]), data)
      else if name == "VecMap" then
        if |params| < 2 then None else SkipList(PairSkipper(params), data)
      else if name == "VecSet" then
        if params == [] then None else SkipList(Skipper(params[0]), data)
      else SkipScalar(name, data)
    case TypeParameter(_) => None
  }

  function Skipper(t: MoveType): bytes -> Option<bytes>
    decreases t, 1
  {
    (data: bytes) => Skip(t, data)
  }

  /** Elements of one byte each are skipped as such. */
  function ElementSkipper(inner: MoveType): bytes -> Option<bytes>
    decreases inner, 2
  {
    if !inner.Scalar? && !Long(inner) then (data: bytes) => Drop(1, data) else Skipper(inner)
  }

  function PairSkipper(params: seq<MoveType>): bytes -> Option<bytes>
    requires |params| >= 2
    decreases params, 1
  {
    (data: bytes) => SkipTwo(Skipper(params[0]), Skipper(params[1]), data)
  }

  // ---- values whose encodings end where they should ------------------------

  predicate AllSplit(split: Value -> bool, xs: seq<Value>) {
    forall i :: 0 <= i < |xs| ==> split(xs[i])
  }

  /** Nowhere in the value are bytes or text given for a vector whose elements are no scalars and may
      be longer than one byte. */
  predicate Splits(t: MoveType, v: Value)
    decreases t, 0
  {
    match t
    case Vector(inner) =>
      if v.VList? then AllSplit(Splitter(inner), v.elems) else !Clashes(t)
    case Datatype(name, params) =>
      if name == "Option" then Absent(v) || params == [] || Splits(params[0], v)
      else if name == "VecMap" then
        |params| < 2 || AllSplit(PairSplitter(params), if v.VList? then v.elems else if v.VDict? then v.items else [])
      else name == "VecSet" && params != [] && v.VList? ==> AllSplit(Splitter(params[0]), v.elems)
    case _ => true
  }

  function Splitter(t: MoveType): Value -> bool
    decreases t, 1
  {
    (v: Value) => Splits(t, v)
  }

  predicate SplitsPair(params: seq<MoveType>, p: Value)
    requires |params| >= 2
    decreases params, 0
  {
    Unpack(p).Ok? ==> Splits(params[0], Unpack(p).value.0) && Splits(params[1], Unpack(p).value.1)
  }

  function PairSplitter(params: seq<MoveType>): Value -> bool
    requires |params| >= 2
    decreases params, 1
  {
    (p: Value) => SplitsPair(params, p)
  }

  predicate Skips(enc: Result<bytes>, skip: bytes -> Option<bytes>, s: bytes) {
    enc.Ok? ==> skip(enc.value + s) == Some(s)
  }

  ghost predicate SkipsEach<T>(encode: T -> Result<bytes>, skip: bytes -> Option<bytes>, xs: seq<T>) {
    forall i, s: bytes :: 0 <= i < |xs| ==> Skips(encode(xs[i]), skip, s)
  }

  lemma DropsEncoding(n: nat, b: bytes, s: bytes)
    requires |b| == n
    ensures Drop(n, b + s) == Some(s)
  {
    assert (b + s)[n..] == s;
  }

  lemma TextSkips(u: bytes, s: bytes)
    ensures SkipText(BcsVec(u) + s) == Some(s)
  {
    LengthThen(|u|, u + s);
    assert BcsVec(u) + s == Uleb(|u|) + (u + s);
    DropsEncoding(|u|, u, s);
  }

  lemma ScalarSkips(name: string, v: Value, s: bytes)
    ensures Skips(RawScalar(v, name), (data: bytes) => SkipScalar(name, data), s)
  {
    var enc := RawScalar(v, name);
    if enc.Ok? {
      if IntWidth(name).Some? { DropsEncoding(IntWidth(name).value, enc.value, s); }
      else if name == "bool" { DropsEncoding(1, enc.value, s); }
      else if IsAddress(name) { DropsEncoding(32, enc.value, s); }
      else { TextSkips(Utf8.Encode(v.s), s); }
    }
  }

  lemma {:induction false} ManySkip<T>(encode: T -> Result<bytes>, skip: bytes -> Option<bytes>, xs: seq<T>, s: bytes)
    requires SkipsEach(encode, skip, xs) && Each(encode, xs).Ok?
    ensures SkipMany(skip, Flat(Each(encode, xs).value) + s, |xs|) == Some(s)
    decreases |xs|
  {
    if xs == [] {
      assert [] + s == s;
    } else {
      var e, more := encode(xs[0]).value, Each(encode, xs[1..]).value;
      assert Flat(Each(encode, xs).value) + s == e + (Flat(more) + s);
      assert Skips(encode(xs[0]), skip, Flat(more) + s);
      forall i, s: bytes | 0 <= i < |xs[1..]| ensures Skips(encode(xs[1..][i]), skip, s) {
        assert Skips(encode(xs[i + 1]), skip, s);
      }
      ManySkip(encode, skip, xs[1..], s);
    }
  }

  lemma ListSkips<T>(encode: T -> Result<bytes>, skip: bytes -> Option<bytes>, xs: seq<T>, s: bytes)
    requires SkipsEach(encode, skip, xs)
    ensures Skips(Listed(encode, xs), (data: bytes) => SkipList(skip, data), s)
  {
    if Each(encode, xs).Ok? {
      var encs := Each(encode, xs).value;
      assert Uleb(|encs|) + Flat(encs) + s == Uleb(|xs|) + (Flat(encs) + s);
      CountSkips(skip, |xs|, Flat(encs) + s);
      ManySkip(encode, skip, xs, s);
    }
  }

  ghost predicate DropsOne(skip: bytes -> Option<bytes>) {
    forall data: bytes {:trigger skip(data)} :: |data| > 0 ==> skip(data) == Some(data[1..])
  }

  lemma {:induction false} OnesSkip(skip: bytes -> Option<bytes>, b: bytes, s: bytes)
    requires DropsOne(skip)
    ensures SkipMany(skip, b + s, |b|) == Some(s)
    decreases |b|
  {
    if b == [] {
      assert b + s == s;
    } else {
      assert (b + s)[1..] == b[1..] + s;
      OnesSkip(skip, b[1..], s);
    }
  }

  lemma CountSkips(skip: bytes -> Option<bytes>, n: nat, rest: bytes)
    ensures SkipList(skip, Uleb(n) + rest) == SkipMany(skip, rest, n)
  {
    LengthThen(n, rest);
  }

  lemma BytesSkip(skip: bytes -> Option<bytes>, b: bytes, s: bytes, data: bytes)
    requires DropsOne(skip) && data == BcsVec(b) + s
    ensures SkipList(skip, data) == Some(s)
  {
    CountSkips(skip, |b|, b + s);
    assert data == Uleb(|b|) + (b + s);
    OnesSkip(skip, b, s);
  }

  lemma {:induction false} ElementsSkip(t: MoveType, xs: seq<Value>)
    requires AllSplit(Splitter(t), xs)
    ensures SkipsEach(ElementEncoder(t), Skipper(t), xs)
    decreases t, 1
  {
    forall i, s: bytes | 0 <= i < |xs| ensures Skips(ElementEncoder(t)(xs[i]), Skipper(t), s) {
      assert Splitter(t)(xs[i]);
      RawSkips(t, xs[i], s);
    }
  }

  lemma ShortElementsSkip(t: MoveType, xs: seq<Value>)
    requires !t.Scalar? && !Long(t)
    ensures SkipsEach(ElementEncoder(t), ElementSkipper(t), xs)
  {
    forall i, s: bytes | 0 <= i < |xs| ensures Skips(ElementEncoder(t)(xs[i]), ElementSkipper(t), s) {
      if Raw(t, xs[i]).Ok? {
        NotLong(t, xs[i]);
        DropsEncoding(1, Raw(t, xs[i]).value, s);
      }
    }
  }

  lemma ChunkSkips(name: string, c: bytes, s: bytes)
    ensures Skips(ChunkEncoder(name)(c), Skipper(Scalar(name)), s)
  {
    ScalarSkips(name, VInt(FromLe(c)), s);
  }

  lemma BytesAreOnes()
    ensures DropsOne(Skipper(Scalar("u8")))
  {
    forall data: bytes | |data| > 0 ensures Skipper(Scalar("u8"))(data) == Some(data[1..]) {
      assert Skip(Scalar("u8"), data) == SkipScalar("u8", data) == Drop(1, data);
    }
  }

  /** Bytes for a vector of scalars are encodings of elements. */
  lemma ScalarBytesSkip(name: string, b: bytes, s: bytes, enc: Result<bytes>)
    requires enc == RawBytes(Scalar(name), b) && enc.Ok?
    ensures SkipList(Skipper(Scalar(name)), enc.value + s) == Some(s)
  {
    var skip := Skipper(Scalar(name));
    if name == "u8" {
      BytesAreOnes();
      BytesSkip(skip, b, s, enc.value + s);
    } else {
      var chunks := Chunks(b, ChunkWidth(name));
      forall i, s: bytes | 0 <= i < |chunks| ensures Skips(ChunkEncoder(name)(chunks[i]), skip, s) {
        ChunkSkips(name, chunks[i], s);
      }
      ListSkips(ChunkEncoder(name), skip, chunks, s);
    }
  }

  lemma {:induction false} VectorSkips(inner: MoveType, v: Value, s: bytes)
    requires Splits(Vector(inner), v)
    ensures Skips(Raw(Vector(inner), v), Skipper(Vector(inner)), s)
    decreases inner, 2
  {
    var skip := ElementSkipper(inner);
    assert forall data :: Skipper(Vector(inner))(data) == SkipList(skip, data);
    if v.VList? {
      if !inner.Scalar? && !Long(inner) { ShortElementsSkip(inner, v.elems); } else { ElementsSkip(inner, v.elems); }
      ListSkips(ElementEncoder(inner), skip, v.elems, s);
    } else if v.VText? || v.VBytes? {
      var b := if v.VText? then Utf8.Encode(v.s) else v.data;
      var enc := RawBytes(inner, b);
      assert Raw(Vector(inner), v) == enc;
      if inner.Scalar? {
        if enc.Ok? { ScalarBytesSkip(inner.name, b, s, enc); }
      } else {
        assert forall data :: skip(data) == Drop(1, data);
        BytesSkip(skip, b, s, enc.value + s);
      }
    }
  }

  lemma TwoSkip(first: bytes -> Option<bytes>, second: bytes -> Option<bytes>, k: bytes, v: bytes, s: bytes)
    requires first(k + (v + s)) == Some(v + s) && second(v + s) == Some(s)
    ensures SkipTwo(first, second, k + v + s) == Some(s)
  {
    assert k + v + s == k + (v + s);
  }

  lemma {:induction false} PairSkips(params: seq<MoveType>, p: Value, s: bytes)
    requires |params| >= 2 && SplitsPair(params, p)
    ensures Skips(RawPair(params, p), PairSkipper(params), s)
    decreases params, 0
  {
    if RawPair(params, p).Ok? {
      var (x, y) := Unpack(p).value;
      var key, value := Raw(params[0], x).value, Raw(params[1], y).value;
      RawSkips(params[0], x, value + s);
      RawSkips(params[1], y, s);
      TwoSkip(Skipper(params[0]), Skipper(params[1]), key, value, s);
    }
  }

  lemma {:induction false} VecMapSkips(params: seq<MoveType>, v: Value, s: bytes)
    requires Splits(Datatype("VecMap", params), v)
    ensures Skips(Raw(Datatype("VecMap", params), v), Skipper(Datatype("VecMap", params)), s)
    decreases params, 2
  {
    if |params| >= 2 && (v.VList? || v.VDict?) {
      var pairs, skip := if v.VList? then v.elems else v.items, PairSkipper(params);
      forall i, s: bytes | 0 <= i < |pairs| ensures Skips(PairEncoder(params)(pairs[i]), skip, s) {
        assert PairSplitter(params)(pairs[i]);
        PairSkips(params, pairs[i], s);
      }
      ListSkips(PairEncoder(params), skip, pairs, s);
      assert forall data :: Skipper(Datatype("VecMap", params))(data) == SkipList(skip, data);
    }
  }

  lemma {:induction false} VecSetSkips(params: seq<MoveType>, v: Value, s: bytes)
    requires Splits(Datatype("VecSet", params), v)
    ensures Skips(Raw(Datatype("VecSet", params), v), Skipper(Datatype("VecSet", params)), s)
    decreases params, 2
  {
    if params != [] && v.VList? {
      ElementsSkip(params[0], v.elems);
      ListSkips(ElementEncoder(params[0]), Skipper(params[0]), v.elems, s);
      assert forall data :: Skipper(Datatype("VecSet", params))(data) == SkipList(Skipper(params[0]), data);
    }
  }

  lemma {:induction false} OptionSkips(params: seq<MoveType>, v: Value, s: bytes)
    requires Splits(Datatype("Option", params), v)
    ensures Skips(Raw(Datatype("Option", params), v), Skipper(Datatype("Option", params)), s)
    decreases params, 2
  {
    var enc := Raw(Datatype("Option", params), v);
    if Absent(v) {
      assert ([0] + s)[1..] == s;
    } else if enc.Ok? {
      RawSkips(params[0], v, s);
      var payload := Raw(params[0], v).value;
      assert ([1] + payload + s)[1..] == payload + s;
    }
  }

  /** The encoding of a value that splits ends where the type says. */
  lemma {:induction false} RawSkips(t: MoveType, v: Value, s: bytes)
    requires Splits(t, v)
    ensures Skips(Raw(t, v), Skipper(t), s)
    decreases t, 0
  {
    match t
    case Scalar(name) => ScalarSkips(name, v, s);
    case Vector(inner) => VectorSkips(inner, v, s);
    case Datatype(name, params) =>
      if name == "Option" { OptionSkips(params, v, s); }
      else if name == "VecMap" { VecMapSkips(params, v, s); }
      else if name == "VecSet" { VecSetSkips(params, v, s); }
      else { ScalarSkips(name, v, s); }
    case TypeParameter(_) =>
  }

  /** No encoding of a value that splits is a proper prefix of another's. */
  lemma SplitPrefixFree(t: MoveType, v: Value, w: Value, r: bytes, s: bytes)
    requires Splits(t, v) && Splits(t, w) && Raw(t, v).Ok? && Raw(t, w).Ok?
    requires Raw(t, v).value + r == Raw(t, w).value + s
    ensures Raw(t, v) == Raw(t, w) && r == s
  {
    RawSkips(t, v, r);
    RawSkips(t, w, s);
    var all := Raw(t, v).value + r;
    assert all[..|Raw(t, v).value|] == Raw(t, v).value && all[..|Raw(t, w).value|] == Raw(t, w).value;
  }

  lemma {:induction false} ClashesLong(t: MoveType)
    requires Clashes(t)
    ensures Long(t) && Fills(t)
  {
    match t
    case Vector(_) =>
    case Datatype(name, params) =>
      if Clashes(params[0]) { ClashesLong(params[0]); } else { ClashesLong(params[1]); }
  }

  /** ... and in a type without a clash every accepted value does. */
  lemma {:induction false} AcceptedSplits(t: MoveType, v: Value)
    requires Raw(t, v).Ok? && !Clashes(t)
    ensures Splits(t, v)
    decreases t, 0
  {
    match t
    case Scalar(_) =>
    case Vector(inner) =>
      if v.VList? {
        if Clashes(inner) { ClashesLong(inner); }
        AllAcceptedSplit(inner, v.elems);
      }
    case Datatype(name, params) =>
      if name == "Option" {
        if !Absent(v) { AcceptedSplits(params[0], v); }
      } else if name == "VecSet" {
        AllAcceptedSplit(params[0], v.elems);
      } else if name == "VecMap" {
        AcceptedPairsSplit(params, if v.VList? then v.elems else v.items);
      }
  }

  lemma {:induction false} AllEncode<T>(encode: T -> Result<bytes>, xs: seq<T>)
    requires Each(encode, xs).Ok?
    ensures forall i :: 0 <= i < |xs| ==> encode(xs[i]).Ok?
  {
  }

  lemma {:induction false} AllAcceptedSplit(t: MoveType, xs: seq<Value>)
    requires Listed(ElementEncoder(t), xs).Ok? && !Clashes(t)
    ensures AllSplit(Splitter(t), xs)
    decreases t, 1
  {
    AllEncode(ElementEncoder(t), xs);
    forall i | 0 <= i < |xs| ensures Splitter(t)(xs[i]) { AcceptedSplits(t, xs[i]); }
  }

  lemma {:induction false} AcceptedPairsSplit(params: seq<MoveType>, pairs: seq<Value>)
    requires |params| >= 2 && Listed(PairEncoder(params), pairs).Ok? && !Clashes(Datatype("VecMap", params))
    ensures AllSplit(PairSplitter(params), pairs)
    decreases params, 1
  {
    if !Accepting(params[0]) || !Accepting(params[1]) {
      VecMapAccepts(params, pairs);
    } else {
      AllEncode(PairEncoder(params), pairs);
      forall i | 0 <= i < |pairs| ensures PairSplitter(params)(pairs[i]) {
        var (x, y) := Unpack(pairs[i]).value;
        AcceptedSplits(params[0], x);
        AcceptedSplits(params[1], y);
      }
    }
  }

  // ---- a clash -------------------------------------------------------------

  function Zeros(n: nat): (b: bytes)
    ensures |b| == n
  {
    seq(n, _ => 0)
  }

  function ZeroAddress(): string {
    PrintAddress(Zeros(32))
  }

  /** A value whose encoding is all zeros. */
  function Zero(t: MoveType): Value {
    match t
    case Scalar(name) =>
      if IntWidth(name).Some? then VInt(0)
      else if name == "bool" then VBool(false)
      else if IsAddress(name) then VText(ZeroAddress())
      else VText("")
    case Datatype(name, _) =>
      if name == "Option" then VNone
      else if name == "String" then VText("")
      else if name == "ID" || name == "UID" then VText(ZeroAddress())
      else VList([])
    case _ => VList([])
  }

  lemma {:induction false} ZeroInt(width: nat)
    ensures ToLe(0, width) == Zeros(width) && Pow256(width) > 0
  {
    if width > 0 { ZeroInt(width - 1); }
  }

  lemma ZeroAddressEncodes()
    ensures RawAddress(VText(ZeroAddress())) == Ok(Zeros(32))
  {
    ParsePrintAddress(Zeros(32));
  }

  lemma NothingEncodes()
    ensures RawText(VText("")) == Ok([0]) && Uleb(0) == [0] == Zeros(1)
  {
    assert Utf8.Encode("") == [] && Uleb(0) + [] == [0];
  }

  lemma ZeroIntEncodes(name: string) returns (n: nat)
    requires IntWidth(name).Some?
    ensures n == IntWidth(name).value && RawScalar(VInt(0), name) == Ok(Zeros(n))
  {
    n := IntWidth(name).value;
    ZeroInt(n);
  }

  lemma AddressScalar(name: string, v: Value)
    requires IsAddress(name)
    ensures IntWidth(name).None? && RawScalar(v, name) == RawAddress(v)
  {
  }

  lemma AddressScalarEncodes(name: string)
    requires IsAddress(name)
    ensures IntWidth(name).None? && RawScalar(VText(ZeroAddress()), name) == Ok(Zeros(32))
  {
    AddressScalar(name, VText(ZeroAddress()));
    ZeroAddressEncodes();
  }

  lemma ZeroScalarEncodes(name: string) returns (n: nat)
    requires Known(name)
    ensures n > 0 && Raw(Scalar(name), Zero(Scalar(name))) == Ok(Zeros(n))
  {
    n := 1;
    if IntWidth(name).Some? {
      n := ZeroIntEncodes(name);
    } else if IsAddress(name) {
      AddressScalarEncodes(name);
      n := 32;
    } else if name == "bool" {
      assert Zeros(1) == [0];
    } else {
      NothingEncodes();
    }
  }

  lemma ZeroListEncodes(name: string, params: seq<MoveType>)
    requires Accepting(Datatype(name, params)) && (name == "VecMap" || name == "VecSet")
    ensures Raw(Datatype(name, params), VList([])) == Ok([0])
  {
    if name == "VecMap" {
      NothingListed(PairEncoder(params), []);
    } else {
      NothingListed(ElementEncoder(params[0]), []);
      SetOfList(params, [], Ok([0]));
    }
  }

  lemma ZeroDatatypeEncodes(name: string, params: seq<MoveType>) returns (n: nat)
    requires Accepting(Datatype(name, params))
    ensures n > 0 && Raw(Datatype(name, params), Zero(Datatype(name, params))) == Ok(Zeros(n))
  {
    n := 1;
    assert Zeros(1) == [0];
    if name == "ID" || name == "UID" {
      ZeroAddressEncodes();
      n := 32;
    } else if name == "VecMap" || name == "VecSet" {
      ZeroListEncodes(name, params);
    } else {
      NothingEncodes();
    }
  }

  lemma ZeroEncodes(t: MoveType) returns (n: nat)
    requires Accepting(t)
    ensures n > 0 && Raw(t, Zero(t)) == Ok(Zeros(n))
  {
    match t
    case Scalar(name) => n := ZeroScalarEncodes(name);
    case Vector(inner) =>
      NothingEncodes();
      NothingListed(ElementEncoder(inner), []);
      n := 1;
    case Datatype(name, params) => n := ZeroDatatypeEncodes(name, params);
  }

  /** A value that is accepted and that no Option takes for absent. */
  function Filler(t: MoveType): (v: Value)
    requires Fills(t)
    ensures !Absent(v)
  {
    if t.Datatype? && t.name == "Option" then Filler(t.params[0]) else Zero(t)
  }

  lemma {:induction false} FillerEncodes(t: MoveType)
    requires Fills(t)
    ensures Raw(t, Filler(t)).Ok? && Raw(t, Filler(t)).value != []
  {
    if t.Datatype? && t.name == "Option" {
      FillerEncodes(t.params[0]);
    } else {
      var n := ZeroEncodes(t);
    }
  }

  lemma OneListed<T>(encode: T -> Result<bytes>, x: T, e: bytes)
    requires encode(x) == Ok(e)
    ensures Listed(encode, [x]) == Ok([1] + e)
  {
    EachIs(encode, [x], [e]);
    assert Flat([e]) == e;
  }

  function Longer(t: MoveType): Value
    requires Long(t)
  {
    match t
    case Scalar(name) => if name == "String" then VText("a") else Zero(t)
    case Vector(inner) => if inner.Scalar? then VList([Zero(inner)]) else VBytes([0])
    case Datatype(name, params) =>
      if name == "Option" then Filler(params[0])
      else if name == "VecMap" then VList([VTuple(Zero(params[0]), Zero(params[1]))])
      else if name == "VecSet" then VList([Zero(params[0])])
      else if name == "String" then VText("a")
      else Zero(t)
  }

  lemma LetterEncodes()
    ensures RawText(VText("a")).Ok? && |RawText(VText("a")).value| > 1
  {
    assert Utf8.Encode("a") == Utf8.EncodeChar('a') + Utf8.Encode("");
  }

  lemma LongerScalarEncodes(name: string)
    requires Long(Scalar(name))
    ensures var r := Raw(Scalar(name), Longer(Scalar(name))); r.Ok? && |r.value| > 1
  {
    if name == "String" {
      LetterEncodes();
    } else if IntWidth(name).Some? {
      var n := ZeroIntEncodes(name);
    } else {
      AddressScalarEncodes(name);
    }
  }

  lemma PairEncodes(params: seq<MoveType>, x: Value, y: Value, key: bytes, value: bytes)
    requires |params| >= 2 && Raw(params[0], x) == Ok(key) && Raw(params[1], y) == Ok(value)
    ensures PairEncoder(params)(VTuple(x, y)) == Ok(key + value)
  {
    assert Unpack(VTuple(x, y)) == Ok((x, y));
    assert RawPair(params, VTuple(x, y)) == Ok(key + value);
  }

  lemma LongerPairEncodes(params: seq<MoveType>)
    requires |params| >= 2 && Accepting(params[0]) && Accepting(params[1])
    ensures var r := Listed(PairEncoder(params), [VTuple(Zero(params[0]), Zero(params[1]))]); r.Ok? && |r.value| > 1
  {
    var k := ZeroEncodes(params[0]);
    var n := ZeroEncodes(params[1]);
    PairEncodes(params, Zero(params[0]), Zero(params[1]), Zeros(k), Zeros(n));
    OneListed(PairEncoder(params), VTuple(Zero(params[0]), Zero(params[1])), Zeros(k) + Zeros(n));
  }

  lemma LongerElementEncodes(t: MoveType)
    requires Accepting(t)
    ensures var r := Listed(ElementEncoder(t), [Zero(t)]); r.Ok? && |r.value| > 1
  {
    var n := ZeroEncodes(t);
    OneListed(ElementEncoder(t), Zero(t), Zeros(n));
  }

  lemma LongerDatatypeEncodes(name: string, params: seq<MoveType>)
    requires Long(Datatype(name, params))
    ensures var r := Raw(Datatype(name, params), Longer(Datatype(name, params))); r.Ok? && |r.value| > 1
  {
    if name == "Option" { FillerEncodes(params[0]); }
    else if name == "VecMap" { LongerPairEncodes(params); }
    else if name == "VecSet" { LongerElementEncodes(params[0]); }
    else {
      LetterEncodes();
      ZeroAddressEncodes();
    }
  }

  lemma LongerEncodes(t: MoveType)
    requires Long(t)
    ensures Raw(t, Longer(t)).Ok? && |Raw(t, Longer(t)).value| > 1
  {
    match t
    case Scalar(name) => LongerScalarEncodes(name);
    case Vector(inner) => if inner.Scalar? { LongerElementEncodes(inner); }
    case Datatype(name, params) => LongerDatatypeEncodes(name, params);
  }

  /** The encoding of `w` is that of `v` and some zeros. */
  ghost predicate ZerosAfter(t: MoveType, v: Value, w: Value, n: nat) {
    && n > 0 && !Absent(v) && !Absent(w) && Raw(t, v).Ok? && Raw(t, w).Ok?
    && Raw(t, w).value == Raw(t, v).value + Zeros(n)
  }

  lemma {:induction false} FlatZeros(k: nat, n: nat)
    ensures Flat(seq(n, _ => Zeros(k))) == Zeros(n * k)
  {
    if n > 0 {
      FlatZeros(k, n - 1);
      assert seq(n, _ => Zeros(k))[1..] == seq(n - 1, _ => Zeros(k));
      assert n * k == k + (n - 1) * k;
    }
  }

  /** A long element and as many zeros as make a list of its length, against the bytes of the element. */
  lemma VectorClash(inner: MoveType) returns (v: Value, w: Value, n: nat)
    requires !inner.Scalar? && Long(inner)
    ensures ZerosAfter(Vector(inner), v, w, n)
  {
    var x, z := Longer(inner), Zero(inner);
    LongerEncodes(inner);
    AcceptedAccepting(inner, x);
    var k := ZeroEncodes(inner);
    var xs, e;
    xs, e, n := ListOfLength(ElementEncoder(inner), x, z, Raw(inner, x).value, k);
    v, w := VBytes(e), VList(xs);
    BytesAgainstList(inner, xs, e, n);
  }

  lemma ListOfLength(encode: Value -> Result<bytes>, x: Value, z: Value, first: bytes, k: nat)
    returns (xs: seq<Value>, e: bytes, n: nat)
    requires encode(x) == Ok(first) && encode(z) == Ok(Zeros(k)) && |first| > 1 && k > 0
    ensures e == first && n > 0 && |xs| > 1 && Listed(encode, xs) == Ok(Uleb(|e|) + (e + Zeros(n)))
  {
    var m := |first| - 1;
    e, xs, n := first, [x] + seq(m, _ => z), m * k;
    ListedZeros(encode, x, z, e, m, k, n);
  }

  lemma BytesAgainstList(inner: MoveType, xs: seq<Value>, e: bytes, n: nat)
    requires !inner.Scalar? && n > 0 && |xs| > 1
    requires Listed(ElementEncoder(inner), xs) == Ok(Uleb(|e|) + (e + Zeros(n)))
    ensures ZerosAfter(Vector(inner), VBytes(e), VList(xs), n)
  {
    VectorOfBytes(inner, e, Ok(BcsVec(e)));
    VectorOfList(inner, xs, Ok(Uleb(|e|) + (e + Zeros(n))));
    assert Uleb(|e|) + (e + Zeros(n)) == Uleb(|e|) + e + Zeros(n);
  }

  lemma ListedZeros(encode: Value -> Result<bytes>, x: Value, z: Value, e: bytes, m: nat, k: nat, n: nat)
    requires encode(x) == Ok(e) && encode(z) == Ok(Zeros(k)) && n == m * k
    ensures Listed(encode, [x] + seq(m, _ => z)) == Ok(Uleb(m + 1) + (e + Zeros(n)))
  {
    var encs := [e] + seq(m, _ => Zeros(k));
    EachIs(encode, [x] + seq(m, _ => z), encs);
    assert encs[1..] == seq(m, _ => Zeros(k));
    FlatZeros(k, m);
  }

  lemma OptionClash(params: seq<MoveType>, v: Value, w: Value, n: nat)
    requires params != [] && ZerosAfter(params[0], v, w, n)
    ensures ZerosAfter(Datatype("Option", params), v, w, n)
  {
    var e, f := Raw(params[0], v).value, Raw(params[0], w).value;
    assert [1] + f == [1] + e + Zeros(n);
  }

  lemma SetOfList(params: seq<MoveType>, xs: seq<Value>, r: Result<bytes>)
    requires params != [] && r == Listed(ElementEncoder(params[0]), xs)
    ensures Raw(Datatype("VecSet", params), VList(xs)) == r
  {
  }

  lemma VecSetClash(params: seq<MoveType>, v: Value, w: Value, n: nat)
    requires params != [] && ZerosAfter(params[0], v, w, n)
    ensures ZerosAfter(Datatype("VecSet", params), VList([v]), VList([w]), n)
  {
    var e, f := Raw(params[0], v).value, Raw(params[0], w).value;
    OneListed(ElementEncoder(params[0]), v, e);
    OneListed(ElementEncoder(params[0]), w, f);
    SetOfList(params, [v], Ok([1] + e));
    SetOfList(params, [w], Ok([1] + f));
    assert [1] + f == [1] + e + Zeros(n);
  }

  lemma OnePair(params: seq<MoveType>, x: Value, y: Value, key: bytes, value: bytes)
    requires |params| >= 2 && Raw(params[0], x) == Ok(key) && Raw(params[1], y) == Ok(value)
    ensures Raw(Datatype("VecMap", params), VList([VTuple(x, y)])) == Ok([1] + (key + value))
  {
    PairEncodes(params, x, y, key, value);
    OneListed(PairEncoder(params), VTuple(x, y), key + value);
  }

  lemma ZerosCommute(e: bytes, k: nat, n: nat)
    ensures [1] + (e + Zeros(n) + Zeros(k)) == [1] + (e + Zeros(k)) + Zeros(n)
  {
    assert Zeros(n) + Zeros(k) == Zeros(k) + Zeros(n);
    assert [1] + (e + Zeros(n) + Zeros(k)) == [1] + e + (Zeros(n) + Zeros(k));
    assert [1] + (e + Zeros(k)) + Zeros(n) == [1] + e + (Zeros(k) + Zeros(n));
  }

  lemma Reassociate(a: bytes, b: bytes, c: bytes)
    ensures [1] + (a + (b + c)) == [1] + (a + b) + c
  {
  }

  lemma KeyClash(params: seq<MoveType>, v: Value, w: Value, n: nat, y: Value)
    requires |params| >= 2 && ZerosAfter(params[0], v, w, n) && Accepting(params[1]) && y == Zero(params[1])
    ensures ZerosAfter(Datatype("VecMap", params), VList([VTuple(v, y)]), VList([VTuple(w, y)]), n)
  {
    var k := ZeroEncodes(params[1]);
    var e := Raw(params[0], v).value;
    OnePair(params, v, y, e, Zeros(k));
    OnePair(params, w, y, e + Zeros(n), Zeros(k));
    ZerosCommute(e, k, n);
  }

  lemma ValueClash(params: seq<MoveType>, v: Value, w: Value, n: nat, x: Value)
    requires |params| >= 2 && ZerosAfter(params[1], v, w, n) && Accepting(params[0]) && x == Zero(params[0])
    ensures ZerosAfter(Datatype("VecMap", params), VList([VTuple(x, v)]), VList([VTuple(x, w)]), n)
  {
    var k := ZeroEncodes(params[0]);
    var e := Raw(params[1], v).value;
    OnePair(params, x, v, Zeros(k), e);
    OnePair(params, x, w, Zeros(k), e + Zeros(n));
    Reassociate(Zeros(k), e, Zeros(n));
  }

  lemma {:induction false} TypeClash(t: MoveType) returns (v: Value, w: Value, n: nat)
    requires Clashes(t)
    ensures ZerosAfter(t, v, w, n)
  {
    match t
    case Vector(inner) => v, w, n := VectorClash(inner);
    case Datatype(name, params) =>
      if name == "VecMap" {
        if Clashes(params[0]) && Accepting(params[1]) {
          var y := Zero(params[1]);
          v, w, n := TypeClash(params[0]);
          KeyClash(params, v, w, n, y);
          v, w := VList([VTuple(v, y)]), VList([VTuple(w, y)]);
        } else {
          var x := Zero(params[0]);
          v, w, n := TypeClash(params[1]);
          ValueClash(params, v, w, n, x);
          v, w := VList([VTuple(x, v)]), VList([VTuple(x, w)]);
        }
      } else {
        v, w, n := TypeClash(params[0]);
        if name == "Option" {
          OptionClash(params, v, w, n);
        } else {
          VecSetClash(params, v, w, n);
          v, w := VList([v]), VList([w]);
        }
      }
  }

  /** Where two encodings are followed by `r` and `s`, the end of the first is known. */
  predicate Ends(t: MoveType, v: Value, w: Value, r: bytes, s: bytes) {
    Raw(t, v).Ok? && Raw(t, w).Ok? && Raw(t, v).value + r == Raw(t, w).value + s ==> Raw(t, v) == Raw(t, w) && r == s
  }

  /** The encodings of a type are prefix-free exactly if it accepts no vector of elements that are no
      scalars and may be longer than one byte. */
  lemma TypePrefixFreeExactly(t: MoveType)
    ensures (forall v, w, r, s :: Ends(t, v, w, r, s)) <==> !Clashes(t)
  {
    if Clashes(t) {
      var v, w, n := TypeClash(t);
      assert Raw(t, v).value + Zeros(n) == Raw(t, w).value + [];
      assert !Ends(t, v, w, Zeros(n), []);
    } else {
      forall v, w, r, s ensures Ends(t, v, w, r, s) {
        if Raw(t, v).Ok? && Raw(t, w).Ok? && Raw(t, v).value + r == Raw(t, w).value + s {
          AcceptedSplits(t, v);
          AcceptedSplits(t, w);
          SplitPrefixFree(t, v, w, r, s);
        }
      }
    }
  }
}
