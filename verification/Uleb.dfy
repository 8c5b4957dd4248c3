// ULEB128 lengths: the two encoders, the decoder, and what the encoding guarantees.
// Seven-bit groups are taken by division; a continuation byte has 128 added.

module Uleb128 {
  import opened Base

  /** The encoding, least significant group first (section 7.6 of DWARF Version 5). */
  function Uleb(n: nat): (b: bytes)
    ensures b != []
  {
    if n < 128 then [n] else [n % 128 + 128] + Uleb(n / 128)
  }

  /** `serialize_uint32_as_uleb128`. */
  method SerializeAsUleb128(value: nat) returns (ret: bytes)
    ensures ret == Uleb(value)
  {
    var v := value;
    ret := [];
    while v >= 128
      invariant ret + Uleb(v) == Uleb(value)
    {
      ret := ret + [v % 128 + 128];
      v := v / 128;
    }
    ret := ret + [v];
  }

  /** `_uleb128` of the seal client: it looks at what remains after each group. */
  method SealUleb128(value: nat) returns (ret: bytes)
    ensures ret == Uleb(value)
  {
    var n := value;
    ret := [];
    var done := false;
    while !done
      invariant !done ==> ret + Uleb(n) == Uleb(value)
      invariant done ==> ret == Uleb(value)
      decreases !done, n
    {
      var group: nat := n % 128;
      n := n / 128;
      if n != 0 {
        ret := ret + [group + 128];
      } else {
        ret := ret + [group];
        done := true;
      }
    }
  }

  /** What the decoder returns from `pos`: the value and the position after it; no value when the
      data ends before a final group. */
  function Decode(data: bytes, pos: nat): (r: Option<(nat, nat)>)
    ensures r.Some? ==> pos < r.value.1 <= |data|
    decreases |data| - pos
  {
    if pos >= |data| then None
    else if data[pos] < 128 then Some((data[pos], pos + 1))
    else
      match Decode(data, pos + 1)
      case Some((v, p)) => Some((data[pos] - 128 + 128 * v, p))
      case None => None
  }

  lemma Distribute(scale: nat, val: nat, group: nat, v: nat)
    ensures val + scale * (group + 128 * v) == (val + scale * group) + (scale * 128) * v
  {
  }

  /** `_uleb128` of the checkpoint decoder; `scale` is `1 << shift`. Running off the data raises. */
  method DecodeUleb128(data: bytes, start: nat) returns (r: Option<(nat, nat)>)
    ensures r == Decode(data, start)
  {
    var val: nat, scale: nat, pos := 0, 1, start;
    while pos < |data|
      invariant start <= pos
      invariant Decode(data, start) ==
        (match Decode(data, pos) case Some((v, p)) => Some((val + scale * v, p)) case None => None)
      decreases |data| - pos
    {
      var b := data[pos];
      if b < 128 {
        return Some((val + scale * b, pos + 1));
      }
      ghost var rest := Decode(data, pos + 1);
      if rest.Some? { Distribute(scale, val, b - 128, rest.value.0); }
      val, scale, pos := val + scale * (b - 128), scale * 128, pos + 1;
    }
    return None;
  }

  /** Started at an encoding, the decoder returns the number and the position just after it. */
  lemma {:induction false} DecodeEncoded(before: bytes, n: nat, after: bytes)
    ensures Decode(before + Uleb(n) + after, |before|) == Some((n, |before| + |Uleb(n)|))
    decreases n
  {
    var data := before + Uleb(n) + after;
    assert data[|before|] == Uleb(n)[0];
    if n >= 128 {
      DecodeEncoded(before + [n % 128 + 128], n / 128, after);
      assert before + [n % 128 + 128] + Uleb(n / 128) + after == data;
    }
  }

  /** `n >> 7 * i`. */
  function Shifted(n: nat, i: nat): nat
    decreases i
  {
    if i == 0 then n else Shifted(n / 128, i - 1)
  }

  /** Byte by byte: seven bits each, the high bit set on all but the last, behind which nothing is left. */
  lemma {:induction false} UlebAt(n: nat, i: nat)
    requires i < |Uleb(n)|
    ensures Uleb(n)[i] == Shifted(n, i) % 128 + if i < |Uleb(n)| - 1 then 128 else 0
    ensures i < |Uleb(n)| - 1 <==> Shifted(n, i) >= 128
    decreases i
  {
    if n >= 128 && i > 0 { UlebAt(n / 128, i - 1); }
  }

  /** The encoding is the shortest: nothing that decodes to the same number is shorter. */
  lemma {:induction false} EncodingIsShortest(data: bytes, pos: nat)
    requires Decode(data, pos).Some?
    ensures |Uleb(Decode(data, pos).value.0)| <= Decode(data, pos).value.1 - pos
    decreases |data| - pos
  {
    if data[pos] >= 128 {
      EncodingIsShortest(data, pos + 1);
      var v := Decode(data, pos + 1).value.0;
      assert (data[pos] - 128 + 128 * v) / 128 == v;
    }
  }

  /** ... and the only one of its length. */
  lemma {:induction false} EncodingIsUnique(data: bytes, pos: nat)
    requires Decode(data, pos).Some?
    requires Decode(data, pos).value.1 - pos == |Uleb(Decode(data, pos).value.0)|
    ensures data[pos..Decode(data, pos).value.1] == Uleb(Decode(data, pos).value.0)
    decreases |data| - pos
  {
    var (n, end) := Decode(data, pos).value;
    if data[pos] >= 128 {
      var v := Decode(data, pos + 1).value.0;
      EncodingIsShortest(data, pos + 1);
      assert n / 128 == v && n % 128 == data[pos] - 128;
      assert n >= 128;
      EncodingIsUnique(data, pos + 1);
      assert data[pos..end] == [data[pos]] + data[pos + 1..end];
    } else {
      assert data[pos..end] == [data[pos]];
    }
  }

  /** No encoding is a proper prefix of another. */
  lemma PrefixFree(m: nat, n: nat, r: bytes, s: bytes)
    requires Uleb(m) + r == Uleb(n) + s
    ensures m == n && r == s
  {
    DecodeEncoded([], m, r);
    DecodeEncoded([], n, s);
    assert [] + Uleb(m) + r == Uleb(m) + r && [] + Uleb(n) + s == Uleb(n) + s;
    assert (Uleb(m) + r)[|Uleb(m)|..] == r && (Uleb(n) + s)[|Uleb(n)|..] == s;
  }

  // ---- length-prefixed vectors ---------------------------------------------

  function BcsVec(data: bytes): bytes {
    Uleb(|data|) + data
  }

  lemma BcsVecPrefixFree(a: bytes, b: bytes, r: bytes, s: bytes)
    requires BcsVec(a) + r == BcsVec(b) + s
    ensures a == b && r == s
  {
    assert BcsVec(a) + r == Uleb(|a|) + (a + r) && BcsVec(b) + s == Uleb(|b|) + (b + s);
    PrefixFree(|a|, |b|, a + r, b + s);
    assert (a + r)[..|a|] == a && (b + s)[..|b|] == b;
    assert (a + r)[|a|..] == r && (b + s)[|b|..] == s;
  }

  /** `_signed_request_bytes`. */
  function SignedRequest(ptb: bytes, encKey: bytes, encVk: bytes): bytes {
    BcsVec(ptb) + BcsVec(encKey) + BcsVec(encVk)
  }

  method SignedRequestBytes(ptb: bytes, encKey: bytes, encVk: bytes) returns (r: bytes)
    ensures r == SignedRequest(ptb, encKey, encVk)
  {
    var p := SealUleb128(|ptb|);
    var k := SealUleb128(|encKey|);
    var v := SealUleb128(|encVk|);
    r := (p + ptb) + (k + encKey) + (v + encVk);
  }

  /** `part` stands at `pos`, behind its length; `end` is after it. */
  predicate HoldsAt(data: bytes, pos: nat, part: bytes, end: nat) {
    exists start :: && pos < start <= end <= |data| && Decode(data, pos) == Some((|part|, start))
                    && data[start..end] == part
  }

  lemma PartHeld(before: bytes, part: bytes, after: bytes, data: bytes)
    requires data == before + BcsVec(part) + after
    ensures HoldsAt(data, |before|, part, |before| + |BcsVec(part)|)
  {
    var head := Uleb(|part|);
    assert data == before + head + (part + after);
    DecodeEncoded(before, |part|, part + after);
    assert data[|before| + |head|..|before| + |head| + |part|] == part;
  }

  /** The transaction, the key and the verification key are read in this order, and nothing is left. */
  lemma SignedRequestHolds(p: bytes, k: bytes, v: bytes, data: bytes) returns (a: nat, b: nat)
    requires data == SignedRequest(p, k, v)
    ensures HoldsAt(data, 0, p, a) && HoldsAt(data, a, k, b) && HoldsAt(data, b, v, |data|)
  {
    a, b := |BcsVec(p)|, |BcsVec(p) + BcsVec(k)|;
    assert data == [] + BcsVec(p) + (BcsVec(k) + BcsVec(v));
    PartHeld([], p, BcsVec(k) + BcsVec(v), data);
    PartHeld(BcsVec(p), k, BcsVec(v), data);
    assert data == BcsVec(p) + BcsVec(k) + BcsVec(v) + [];
    PartHeld(BcsVec(p) + BcsVec(k), v, [], data);
  }

  /** The bytes that are signed determine the three parts. */
  lemma SignedRequestDeterminesParts(p: bytes, k: bytes, v: bytes, p': bytes, k': bytes, v': bytes)
    requires SignedRequest(p, k, v) == SignedRequest(p', k', v')
    ensures p == p' && k == k' && v == v'
  {
    assert SignedRequest(p, k, v) == BcsVec(p) + (BcsVec(k) + BcsVec(v));
    assert SignedRequest(p', k', v') == BcsVec(p') + (BcsVec(k') + BcsVec(v'));
    BcsVecPrefixFree(p, p', BcsVec(k) + BcsVec(v), BcsVec(k') + BcsVec(v'));
    BcsVecPrefixFree(k, k', BcsVec(v), BcsVec(v'));
    assert BcsVec(v) + [] == BcsVec(v) && BcsVec(v') + [] == BcsVec(v');
    BcsVecPrefixFree(v, v', [], []);
  }
}
