// The cursor decoder of checkpoint contents (version 2): nested length-prefixed records.

module Checkpoint {
  import opened Base
  import opened LittleEndian
  import opened Uleb128

  /** A user signature and the version of the address alias it was checked under, if any. */
  datatype Signature = Signature(sig: bytes, alias: Option<nat>)

  /** The decoder returns signatures and alias versions as parallel lists. */
  datatype Record = Record(tx: bytes, effects: bytes, sigs: seq<bytes>, aliases: seq<Option<nat>>) {
    predicate WellTyped() {
      |sigs| == |aliases| && forall i :: 0 <= i < |aliases| && aliases[i].Some? ==> aliases[i].value < Pow256(8)
    }

    function Signatures(): seq<Signature>
      requires |sigs| == |aliases|
    {
      seq(|sigs|, i requires 0 <= i < |sigs| => Signature(sigs[i], aliases[i]))
    }
  }

  // ---- the layout ----------------------------------------------------------

  function EncodeMany<T>(encode: T -> bytes, xs: seq<T>): bytes {
    if xs == [] then [] else encode(xs[0]) + EncodeMany(encode, xs[1..])
  }

  function EncodeList<T>(encode: T -> bytes, xs: seq<T>): bytes {
    Uleb(|xs|) + EncodeMany(encode, xs)
  }

  function EncodeAlias(a: Option<nat>): bytes {
    if a.Some? then [1] + ToLe(a.value, 8) else [0]
  }

  function EncodeSignature(s: Signature): bytes {
    BcsVec(s.sig) + EncodeAlias(s.alias)
  }

  function EncodeRecord(r: Record): bytes {
    if |r.sigs| != |r.aliases| then []
    else BcsVec(r.tx) + (BcsVec(r.effects) + EncodeList(EncodeSignature, r.Signatures()))
  }

  function Encode(rs: seq<Record>): bytes {
    EncodeList(EncodeRecord, rs)
  }

  // ---- the decoder ---------------------------------------------------------

  /** A value and the cursor after it; `None` is an index or unpacking error. */
  type Step<T> = Option<(T, nat)>

  /** A length and a slice of that length; the cursor advances by the length whatever the slice holds. */
  function DecodeVec(data: bytes, pos: nat): Step<bytes> {
    match Decode(data, pos)
    case Some((n, p)) => Some((Slice(data, p, n), p + n))
    case None => None
  }

  /** One option byte, and eight version bytes if it is 1. */
  function DecodeAlias(data: bytes, pos: nat): Step<Option<nat>> {
    if pos >= |data| then None
    else if data[pos] != 1 then Some((None, pos + 1))
    else if pos + 9 > |data| then None
    else Some((Some(FromLe(data[pos + 1..pos + 9])), pos + 9))
  }

  function DecodeSignature(data: bytes, pos: nat): Step<Signature> {
    match DecodeVec(data, pos)
    case None => None
    case Some((sig, p)) =>
      match DecodeAlias(data, p)
      case None => None
      case Some((alias, q)) => Some((Signature(sig, alias), q))
  }

  /** `count` values, one after the other. */
  function DecodeMany<T>(read: nat -> Step<T>, pos: nat, count: nat): Step<seq<T>>
    decreases count
  {
    if count == 0 then Some(([], pos))
    else
      match read(pos)
      case None => None
      case Some((x, p)) =>
        match DecodeMany(read, p, count - 1)
        case None => None
        case Some((xs, e)) => Some(([x] + xs, e))
  }

  /** A length, then that many values. */
  function DecodeList<T>(data: bytes, read: nat -> Step<T>, pos: nat): Step<seq<T>> {
    match Decode(data, pos)
    case None => None
    case Some((count, p)) => DecodeMany(read, p, count)
  }

  function SignatureReader(data: bytes): nat -> Step<Signature> {
    (pos: nat) => DecodeSignature(data, pos)
  }

  function Unzip(s: Step<seq<Signature>>): Step<(seq<bytes>, seq<Option<nat>>)> {
    match s
    case None => None
    case Some((ss, e)) => Some(((MapSeq(ss, (s: Signature) => s.sig), MapSeq(ss, (s: Signature) => s.alias)), e))
  }

  function DecodeRecord(data: bytes, pos: nat): Step<Record> {
    match DecodeVec(data, pos)
    case None => None
    case Some((tx, p)) =>
      match DecodeVec(data, p)
      case None => None
      case Some((effects, q)) =>
        match Unzip(DecodeList(data, SignatureReader(data), q))
        case None => None
        case Some(((sigs, aliases), e)) => Some((Record(tx, effects, sigs, aliases), e))
  }

  function RecordReader(data: bytes): nat -> Step<Record> {
    (pos: nat) => DecodeRecord(data, pos)
  }

  /** `decode_checkpoint_contents_v2`: bytes after the last record are ignored. */
  function DecodeContents(data: bytes): Step<seq<Record>> {
    DecodeList(data, RecordReader(data), 0)
  }

  // ---- the loops -----------------------------------------------------------

  function Prepend<T>(xs: seq<T>, s: Step<seq<T>>): Step<seq<T>> {
    match s case None => None case Some((more, e)) => Some((xs + more, e))
  }

  lemma PrependNone<T>(s: Step<seq<T>>)
    ensures Prepend([], s) == s
  {
    if s.Some? { assert [] + s.value.0 == s.value.0; }
  }

  /** One round of a loop that reads `count` values. */
  lemma OneMore<T>(read: nat -> Step<T>, pos: nat, count: nat, xs: seq<T>)
    requires count > 0
    ensures read(pos).None? ==> Prepend(xs, DecodeMany(read, pos, count)).None?
    ensures read(pos).Some? ==>
      Prepend(xs, DecodeMany(read, pos, count))
      == Prepend(xs + [read(pos).value.0], DecodeMany(read, read(pos).value.1, count - 1))
  {
    if read(pos).Some? {
      var (x, p) := read(pos).value;
      var next := DecodeMany(read, p, count - 1);
      if next.Some? { assert xs + ([x] + next.value.0) == xs + [x] + next.value.0; }
    }
  }

  /** A length and its slice. */
  method ReadVec(data: bytes, start: nat) returns (r: Step<bytes>)
    ensures r == DecodeVec(data, start)
  {
    var len := DecodeUleb128(data, start);
    if len.None? { return None; }
    return Some((Slice(data, len.value.1, len.value.0), len.value.1 + len.value.0));
  }

  /** The body of the loop over signatures. */
  method ReadSignature(data: bytes, start: nat) returns (r: Step<Signature>)
    ensures r == DecodeSignature(data, start)
  {
    var vec := ReadVec(data, start);
    if vec.None? { return None; }
    var (sig, pos) := vec.value;
    if pos >= |data| { return None; }
    var opt := data[pos];
    if opt == 1 {
      if pos + 9 > |data| { return None; }
      return Some((Signature(sig, Some(FromLe(data[pos + 1..pos + 9]))), pos + 9));
    }
    return Some((Signature(sig, None), pos + 1));
  }

  predicate Parallel(ss: seq<Signature>, sigs: seq<bytes>, aliases: seq<Option<nat>>) {
    sigs == MapSeq(ss, (s: Signature) => s.sig) && aliases == MapSeq(ss, (s: Signature) => s.alias)
  }

  lemma ParallelAppend(ss: seq<Signature>, sigs: seq<bytes>, aliases: seq<Option<nat>>, s: Signature)
    requires Parallel(ss, sigs, aliases)
    ensures Parallel(ss + [s], sigs + [s.sig], aliases + [s.alias])
  {
  }

  /** The loop that fills the two parallel lists. */
  method ReadSignatures(data: bytes, start: nat, count: nat) returns (r: Step<(seq<bytes>, seq<Option<nat>>)>)
    ensures r == Unzip(DecodeMany(SignatureReader(data), start, count))
  {
    var pos, sigs: seq<bytes>, aliases: seq<Option<nat>> := start, [], [];
    ghost var ss: seq<Signature> := [];
    ghost var all := DecodeMany(SignatureReader(data), start, count);
    PrependNone(all);
    for i := 0 to count
      invariant pos >= 0 && Parallel(ss, sigs, aliases)
      invariant all == Prepend(ss, DecodeMany(SignatureReader(data), pos, count - i))
    {
      var one := ReadSignature(data, pos);
      OneMore(SignatureReader(data), pos, count - i, ss);
      if one.None? { return None; }
      ParallelAppend(ss, sigs, aliases, one.value.0);
      ss := ss + [one.value.0];
      sigs, aliases, pos := sigs + [one.value.0.sig], aliases + [one.value.0.alias], one.value.1;
    }
    assert ss + [] == ss;
    return Some(((sigs, aliases), pos));
  }

  /** The body of the loop over records. */
  method ReadRecord(data: bytes, start: nat) returns (r: Step<Record>)
    ensures r == DecodeRecord(data, start)
  {
    var tx := ReadVec(data, start);
    if tx.None? { return None; }
    var effects := ReadVec(data, tx.value.1);
    if effects.None? { return None; }
    var count := DecodeUleb128(data, effects.value.1);
    if count.None? { return None; }
    var lists := ReadSignatures(data, count.value.1, count.value.0);
    if lists.None? { return None; }
    return Some((Record(tx.value.0, effects.value.0, lists.value.0.0, lists.value.0.1), lists.value.1));
  }

  /** The loop over records. */
  method ReadRecords(data: bytes, start: nat, count: nat) returns (r: Step<seq<Record>>)
    ensures r == DecodeMany(RecordReader(data), start, count)
  {
    var pos: nat, results: seq<Record> := start, [];
    var read := RecordReader(data);
    ghost var all := DecodeMany(read, start, count);
    PrependNone(all);
    for i := 0 to count
      invariant all == Prepend(results, DecodeMany(read, pos, count - i))
    {
      var one := ReadRecord(data, pos);
      OneMore(read, pos, count - i, results);
      if one.None? { return None; }
      results, pos := results + [one.value.0], one.value.1;
    }
    assert results + [] == results;
    return Some((results, pos));
  }

  /** `decode_checkpoint_contents_v2`. */
  method DecodeCheckpointContents(data: bytes) returns (r: Option<seq<Record>>)
    ensures r == match DecodeContents(data) case Some((rs, _)) => Some(rs) case None => None
  {
    var count := DecodeUleb128(data, 0);
    if count.None? { return None; }
    var records := ReadRecords(data, count.value.1, count.value.0);
    return if records.Some? then Some(records.value.0) else None;
  }

  // ---- the decoder inverts the layout --------------------------------------

  /** The data holds `x` at `pos`. */
  predicate Holds(data: bytes, pos: nat, x: bytes) {
    pos + |x| <= |data| && data[pos..pos + |x|] == x
  }

  lemma HoldsParts(data: bytes, pos: nat, a: bytes, b: bytes)
    requires Holds(data, pos, a + b)
    ensures Holds(data, pos, a) && Holds(data, pos + |a|, b)
  {
    assert data[pos..pos + |a|] == (a + b)[..|a|] == a;
    assert data[pos + |a|..pos + |a| + |b|] == (a + b)[|a|..] == b;
  }

  lemma LengthDecodes(data: bytes, pos: nat, n: nat)
    requires Holds(data, pos, Uleb(n))
    ensures Decode(data, pos) == Some((n, pos + |Uleb(n)|))
  {
    var before, after := data[..pos], data[pos + |Uleb(n)|..];
    assert data == before + Uleb(n) + after;
    DecodeEncoded(before, n, after);
  }

  lemma VecDecodes(data: bytes, pos: nat, v: bytes)
    requires Holds(data, pos, BcsVec(v))
    ensures DecodeVec(data, pos) == Some((v, pos + |BcsVec(v)|))
  {
    HoldsParts(data, pos, Uleb(|v|), v);
    LengthDecodes(data, pos, |v|);
  }

  lemma AliasDecodes(data: bytes, pos: nat, a: Option<nat>)
    requires a.Some? ==> a.value < Pow256(8)
    requires Holds(data, pos, EncodeAlias(a))
    ensures DecodeAlias(data, pos) == Some((a, pos + |EncodeAlias(a)|))
  {
    assert data[pos] == data[pos..pos + |EncodeAlias(a)|][0];
    if a.Some? {
      HoldsParts(data, pos, [1], ToLe(a.value, 8));
      FromToLe(a.value, 8);
    }
  }

  lemma SignatureDecodes(data: bytes, pos: nat, s: Signature)
    requires s.alias.Some? ==> s.alias.value < Pow256(8)
    requires Holds(data, pos, EncodeSignature(s))
    ensures DecodeSignature(data, pos) == Some((s, pos + |EncodeSignature(s)|))
  {
    HoldsParts(data, pos, BcsVec(s.sig), EncodeAlias(s.alias));
    VecDecodes(data, pos, s.sig);
    AliasDecodes(data, pos + |BcsVec(s.sig)|, s.alias);
  }

  predicate ReadsAt<T(==)>(data: bytes, read: nat -> Step<T>, encode: T -> bytes, x: T, pos: nat) {
    Holds(data, pos, encode(x)) ==> read(pos) == Some((x, pos + |encode(x)|))
  }

  ghost predicate Reads<T>(data: bytes, read: nat -> Step<T>, encode: T -> bytes, x: T) {
    forall pos: nat :: ReadsAt(data, read, encode, x, pos)
  }

  lemma {:induction false} ManyDecode<T>(data: bytes, read: nat -> Step<T>, encode: T -> bytes, pos: nat, xs: seq<T>)
    requires forall i :: 0 <= i < |xs| ==> Reads(data, read, encode, xs[i])
    requires Holds(data, pos, EncodeMany(encode, xs))
    ensures DecodeMany(read, pos, |xs|) == Some((xs, pos + |EncodeMany(encode, xs)|))
    decreases |xs|
  {
    if xs != [] {
      assert Reads(data, read, encode, xs[0]) && ReadsAt(data, read, encode, xs[0], pos);
      HoldsParts(data, pos, encode(xs[0]), EncodeMany(encode, xs[1..]));
      ManyDecode(data, read, encode, pos + |encode(xs[0])|, xs[1..]);
      assert [xs[0]] + xs[1..] == xs;
    }
  }

  lemma ListDecodes<T>(data: bytes, read: nat -> Step<T>, encode: T -> bytes, pos: nat, xs: seq<T>)
    requires forall i :: 0 <= i < |xs| ==> Reads(data, read, encode, xs[i])
    requires Holds(data, pos, EncodeList(encode, xs))
    ensures DecodeList(data, read, pos) == Some((xs, pos + |EncodeList(encode, xs)|))
  {
    HoldsParts(data, pos, Uleb(|xs|), EncodeMany(encode, xs));
    LengthDecodes(data, pos, |xs|);
    ManyDecode(data, read, encode, pos + |Uleb(|xs|)|, xs);
  }

  lemma SignaturesDecode(data: bytes, pos: nat, r: Record, ss: seq<Signature>, encoded: bytes)
    requires r.WellTyped() && ss == r.Signatures() && encoded == EncodeList(EncodeSignature, ss)
    requires Holds(data, pos, encoded)
    ensures DecodeList(data, SignatureReader(data), pos) == Some((ss, pos + |encoded|))
  {
    forall i | 0 <= i < |ss| ensures Reads(data, SignatureReader(data), EncodeSignature, ss[i]) {
      forall p: nat ensures ReadsAt(data, SignatureReader(data), EncodeSignature, ss[i], p) {
        if Holds(data, p, EncodeSignature(ss[i])) { SignatureDecodes(data, p, ss[i]); }
      }
    }
    ListDecodes(data, SignatureReader(data), EncodeSignature, pos, ss);
  }

  lemma RecordStep(data: bytes, pos: nat, p: nat, q: nat, r: Record, ss: seq<Signature>, e: nat)
    requires r.WellTyped() && ss == r.Signatures()
    requires DecodeVec(data, pos) == Some((r.tx, p)) && DecodeVec(data, p) == Some((r.effects, q))
    requires DecodeList(data, SignatureReader(data), q) == Some((ss, e))
    ensures DecodeRecord(data, pos) == Some((r, e))
  {
    assert MapSeq(ss, (s: Signature) => s.sig) == r.sigs;
    assert MapSeq(ss, (s: Signature) => s.alias) == r.aliases;
  }

  lemma DigestsDecode(data: bytes, pos: nat, tx: bytes, effects: bytes, p: nat, q: nat, signatures: bytes)
    requires p == pos + |BcsVec(tx)| && q == p + |BcsVec(effects)|
    requires Holds(data, pos, BcsVec(tx) + (BcsVec(effects) + signatures))
    ensures DecodeVec(data, pos) == Some((tx, p))
    ensures DecodeVec(data, p) == Some((effects, q))
    ensures Holds(data, q, signatures)
  {
    HoldsParts(data, pos, BcsVec(tx), BcsVec(effects) + signatures);
    HoldsParts(data, p, BcsVec(effects), signatures);
    VecDecodes(data, pos, tx);
    VecDecodes(data, p, effects);
  }

  lemma RecordDecodes(data: bytes, pos: nat, r: Record)
    requires r.WellTyped()
    requires Holds(data, pos, EncodeRecord(r))
    ensures DecodeRecord(data, pos) == Some((r, pos + |EncodeRecord(r)|))
  {
    var ss := r.Signatures();
    PartsDecode(data, pos, r, ss, EncodeList(EncodeSignature, ss));
  }

  lemma PartsDecode(data: bytes, pos: nat, r: Record, ss: seq<Signature>, encoded: bytes)
    requires r.WellTyped() && ss == r.Signatures() && encoded == EncodeList(EncodeSignature, ss)
    requires Holds(data, pos, BcsVec(r.tx) + (BcsVec(r.effects) + encoded))
    ensures DecodeRecord(data, pos) == Some((r, pos + |BcsVec(r.tx)| + |BcsVec(r.effects)| + |encoded|))
  {
    var p := pos + |BcsVec(r.tx)|;
    var q := p + |BcsVec(r.effects)|;
    DigestsDecode(data, pos, r.tx, r.effects, p, q, encoded);
    SignaturesDecode(data, q, r, ss, encoded);
    RecordStep(data, pos, p, q, r, ss, q + |encoded|);
  }

  lemma RecordReads(data: bytes, r: Record)
    requires r.WellTyped()
    ensures Reads(data, RecordReader(data), EncodeRecord, r)
  {
    forall p: nat ensures ReadsAt(data, RecordReader(data), EncodeRecord, r, p) {
      if Holds(data, p, EncodeRecord(r)) { RecordDecodes(data, p, r); }
    }
  }

  lemma RecordsDecode(data: bytes, read: nat -> Step<Record>, encode: Record -> bytes, rs: seq<Record>)
    requires read == RecordReader(data) && encode == EncodeRecord
    requires forall i :: 0 <= i < |rs| ==> rs[i].WellTyped()
    requires Holds(data, 0, EncodeList(encode, rs))
    ensures DecodeList(data, read, 0) == Some((rs, |EncodeList(encode, rs)|))
  {
    forall r: Record | r.WellTyped() ensures Reads(data, read, encode, r) {
      RecordReads(data, r);
    }
    ListDecodes(data, read, encode, 0, rs);
  }

  /** Data that starts with an encoded list of records decodes to that list, whatever follows it. */
  lemma ContentsDecode(data: bytes, rs: seq<Record>)
    requires forall i :: 0 <= i < |rs| ==> rs[i].WellTyped()
    requires Encode(rs) <= data
    ensures DecodeContents(data) == Some((rs, |Encode(rs)|))
  {
    assert Holds(data, 0, Encode(rs));
    RecordsDecode(data, RecordReader(data), EncodeRecord, rs);
  }

  // ---- on any payload ------------------------------------------------------

  /** A length and all the bytes it declares lie at `pos`. */
  predicate FullVecAt(data: bytes, pos: nat, v: bytes) {
    && Decode(data, pos).Some?
    && Decode(data, pos).value.0 == |v|
    && Holds(data, Decode(data, pos).value.1, v)
  }

  /** Where the next read is inside the data, the slice before it was complete. */
  lemma SliceWasFull(data: bytes, pos: nat, next: nat)
    requires DecodeVec(data, pos).Some? && DecodeVec(data, pos).value.1 <= next <= |data|
    ensures FullVecAt(data, pos, DecodeVec(data, pos).value.0)
  {
  }

  /** The values lie one after the other, each at its place. */
  ghost predicate ManyAt<T(!new)>(read: nat -> Step<T>, at: (nat, T) -> bool, pos: nat, xs: seq<T>)
    decreases |xs|
  {
    xs == [] || (at(pos, xs[0]) && read(pos).Some? && ManyAt(read, at, read(pos).value.1, xs[1..]))
  }

  /** What each successful read guarantees holds of every value of a successful run of reads. */
  lemma {:induction false} ManyComplete<T(!new)>(read: nat -> Step<T>, at: (nat, T) -> bool, end: nat, pos: nat,
                                                 count: nat)
    requires forall p: nat :: read(p).Some? ==> p <= read(p).value.1 <= end && at(p, read(p).value.0)
    requires pos <= end && DecodeMany(read, pos, count).Some?
    ensures var (xs, e) := DecodeMany(read, pos, count).value;
      |xs| == count && pos <= e <= end && ManyAt(read, at, pos, xs)
    decreases count
  {
    if count > 0 {
      var (x, p) := read(pos).value;
      ManyComplete(read, at, end, p, count - 1);
      var (xs, _) := DecodeMany(read, p, count - 1).value;
      assert ([x] + xs)[1..] == xs;
    }
  }

  ghost predicate ListAt<T(!new)>(data: bytes, read: nat -> Step<T>, at: (nat, T) -> bool, pos: nat, xs: seq<T>) {
    && Decode(data, pos).Some? && Decode(data, pos).value.0 == |xs|
    && ManyAt(read, at, Decode(data, pos).value.1, xs)
  }

  lemma ListComplete<T(!new)>(data: bytes, read: nat -> Step<T>, at: (nat, T) -> bool, pos: nat)
    requires forall p: nat :: read(p).Some? ==> p <= read(p).value.1 <= |data| && at(p, read(p).value.0)
    requires DecodeList(data, read, pos).Some?
    ensures var (xs, e) := DecodeList(data, read, pos).value;
      pos < Decode(data, pos).value.1 <= e <= |data| && ListAt(data, read, at, pos, xs)
  {
    var (count, p) := Decode(data, pos).value;
    ManyComplete(read, at, |data|, p, count);
  }

  function SignatureAt(data: bytes): (nat, Signature) -> bool {
    (pos: nat, s: Signature) => FullVecAt(data, pos, s.sig)
  }

  lemma SignatureComplete(data: bytes, pos: nat)
    requires DecodeSignature(data, pos).Some?
    ensures pos <= DecodeSignature(data, pos).value.1 <= |data|
    ensures SignatureAt(data)(pos, DecodeSignature(data, pos).value.0)
  {
    SliceWasFull(data, pos, DecodeSignature(data, pos).value.1);
  }

  /** A record's digests and signatures lie in the data at their full declared lengths. */
  ghost predicate FullRecordAt(data: bytes, pos: nat, r: Record) {
    && FullVecAt(data, pos, r.tx)
    && var p := Decode(data, pos).value.1 + |r.tx|;
    && FullVecAt(data, p, r.effects)
    && |r.sigs| == |r.aliases|
    && ListAt(data, SignatureReader(data), SignatureAt(data), Decode(data, p).value.1 + |r.effects|, r.Signatures())
  }

  lemma RecordComplete(data: bytes, pos: nat)
    requires DecodeRecord(data, pos).Some?
    ensures pos <= DecodeRecord(data, pos).value.1 <= |data|
    ensures FullRecordAt(data, pos, DecodeRecord(data, pos).value.0)
  {
    var (tx, p) := DecodeVec(data, pos).value;
    var (effects, q) := DecodeVec(data, p).value;
    forall p: nat | DecodeSignature(data, p).Some?
      ensures p <= DecodeSignature(data, p).value.1 <= |data|
      ensures SignatureAt(data)(p, DecodeSignature(data, p).value.0)
    {
      SignatureComplete(data, p);
    }
    ListComplete(data, SignatureReader(data), SignatureAt(data), q);
    SliceWasFull(data, p, Decode(data, q).value.1);
    SliceWasFull(data, pos, Decode(data, q).value.1);
    assert DecodeRecord(data, pos).value.0.Signatures() == DecodeList(data, SignatureReader(data), q).value.0;
  }

  ghost function RecordAt(data: bytes): (nat, Record) -> bool {
    (pos: nat, r: Record) => FullRecordAt(data, pos, r)
  }

  /** If any payload decodes, the cursor stayed inside it and no slice was cut short, although the
      decoder checks neither: the read after each slice does. */
  lemma SuccessMeansComplete(data: bytes)
    requires DecodeContents(data).Some?
    ensures var (rs, e) := DecodeContents(data).value;
      e <= |data| && ListAt(data, RecordReader(data), RecordAt(data), 0, rs)
  {
    forall p: nat | DecodeRecord(data, p).Some?
      ensures p <= DecodeRecord(data, p).value.1 <= |data|
      ensures RecordAt(data)(p, DecodeRecord(data, p).value.0)
    {
      RecordComplete(data, p);
    }
    ListComplete(data, RecordReader(data), RecordAt(data), 0);
  }
}
