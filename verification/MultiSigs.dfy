// Weighted multi-signature sets: the constructor's check, the signer bitmap and the byte layout.

module MultiSigs {
  import opened Base
  import opened LittleEndian

  /** A scheme byte and 32 private key bytes. */
  const KEY_LEN: nat := 33

  /** `SignatureScheme.MULTISIG`. */
  const MULTISIG: byte := 3

  function Sum(ws: seq<int>): int {
    if ws == [] then 0 else ws[0] + Sum(ws[1..])
  }

  function Max(ws: seq<int>): int
    requires ws != []
  {
    if |ws| == 1 then ws[0] else if ws[0] >= Max(ws[1..]) then ws[0] else Max(ws[1..])
  }

  /** The constructor's test, and the conversions of the threshold and the weights to unsigned bytes
      while the address is computed, which raise for negative numbers. */
  predicate Accepts(keys: nat, weights: seq<int>, threshold: int) {
    && 2 <= keys < 10
    && keys == |weights|
    && threshold <= 2549
    && Max(weights) <= 255
    && Sum(weights) >= threshold
    && threshold >= 0
    && forall i :: 0 <= i < |weights| ==> weights[i] >= 0
  }

  datatype MultiSig<K> = MultiSig(keys: seq<K>, weights: seq<int>, threshold: int) {
    predicate Valid() { Accepts(|keys|, weights, threshold) }
  }

  function Construct<K>(keys: seq<K>, weights: seq<int>, threshold: int): (r: Result<MultiSig<K>>)
    ensures r.Ok? <==> Accepts(|keys|, weights, threshold)
    ensures r.Ok? ==> r.value == MultiSig(keys, weights, threshold)
  {
    if Accepts(|keys|, weights, threshold) then Ok(MultiSig(keys, weights, threshold))
    else Err("invalid arguments provided to constructor")
  }

  lemma {:induction false} MaxBounds(ws: seq<int>, i: nat)
    requires i < |ws|
    ensures ws[i] <= Max(ws)
  {
    if i > 0 { MaxBounds(ws[1..], i - 1); }
  }

  lemma {:induction false} SumBound(ws: seq<int>)
    requires forall i :: 0 <= i < |ws| ==> ws[i] <= 255
    ensures Sum(ws) <= 255 * |ws|
  {
    if ws != [] { SumBound(ws[1..]); }
  }

  /** What acceptance means: two to nine keys, a weight that fits one byte for each, and a threshold
      that is within reach and at most 2295. The test against 2549 therefore never decides. */
  lemma AcceptedExactly<K>(keys: seq<K>, weights: seq<int>, threshold: int)
    ensures Construct(keys, weights, threshold).Ok? <==>
      && 2 <= |keys| <= 9 && |weights| == |keys|
      && (forall i :: 0 <= i < |weights| ==> 0 <= weights[i] < 0x100)
      && 0 <= threshold <= Sum(weights) <= 255 * |keys|
  {
    if 2 <= |keys| < 10 && |keys| == |weights| {
      if forall i :: 0 <= i < |weights| ==> 0 <= weights[i] < 0x100 {
        SumBound(weights);
        MaxIsOne(weights);
      }
      if Max(weights) <= 255 {
        forall i | 0 <= i < |weights| ensures weights[i] <= 255 { MaxBounds(weights, i); }
        SumBound(weights);
      }
    }
  }

  lemma {:induction false} MaxIsOne(ws: seq<int>)
    requires ws != []
    ensures exists i :: 0 <= i < |ws| && ws[i] == Max(ws)
  {
    if |ws| > 1 {
      MaxIsOne(ws[1..]);
      var i :| 0 <= i < |ws[1..]| && ws[1..][i] == Max(ws[1..]);
      assert ws[i + 1] == ws[1..][i];
      assert ws[0] == Max(ws) || ws[i + 1] == Max(ws);
    } else {
      assert ws[0] == Max(ws);
    }
  }

  // ---- signers -------------------------------------------------------------

  /** `list.index`: the first position. */
  function IndexOf<K(==)>(keys: seq<K>, k: K): (i: Option<nat>)
    ensures i.Some? <==> k in keys
    ensures i.Some? ==> i.value < |keys| && keys[i.value] == k && forall j :: 0 <= j < i.value ==> keys[j] != k
  {
    if keys == [] then None
    else if keys[0] == k then Some(0)
    else
      match IndexOf(keys[1..], k)
      case Some(i) => Some(i + 1)
      case None => None
  }

  /** The weights at some positions. */
  function Picked(weights: seq<int>, hits: seq<nat>): seq<int>
    requires forall i :: 0 <= i < |hits| ==> hits[i] < |weights|
  {
    if hits == [] then [] else [weights[hits[0]]] + Picked(weights, hits[1..])
  }

  /** The positions of the signers, in the signers' order. */
  ghost predicate AreHits<K>(keys: seq<K>, signers: seq<K>, hits: seq<nat>) {
    |hits| == |signers| && forall i :: 0 <= i < |signers| ==> IndexOf(keys, signers[i]) == Some(hits[i])
  }

  ghost predicate Refused<K(!new)>(ms: MultiSig<K>, signers: seq<K>)
    requires ms.Valid()
  {
    || |signers| > |ms.keys|
    || (exists s :: s in signers && s !in ms.keys)
    || (exists hits :: AreHits(ms.keys, signers, hits) && Sum(Picked(ms.weights, hits)) < ms.threshold)
  }

  /** `validate_signers`: more signers than keys, an unknown signer, or too little weight is refused. */
  method ValidateSigners<K(==,!new)>(ms: MultiSig<K>, signers: seq<K>) returns (r: Result<seq<nat>>)
    requires ms.Valid()
    ensures r.Ok? ==> AreHits(ms.keys, signers, r.value) && Sum(Picked(ms.weights, r.value)) >= ms.threshold
    ensures r.Ok? ==> |signers| <= |ms.keys|
    ensures r.Err? ==> Refused(ms, signers)
  {
    if |signers| <= |ms.keys| {
      var hits: seq<nat> := [];
      for i := 0 to |signers|
        invariant |hits| == i && forall j :: 0 <= j < i ==> IndexOf(ms.keys, signers[j]) == Some(hits[j])
      {
        var hit := IndexOf(ms.keys, signers[i]);
        if hit.None? {
          assert signers[i] in signers;
          return Err("key is not in list");
        }
        hits := hits + [hit.value];
      }
      if Sum(Picked(ms.weights, hits)) >= ms.threshold { return Ok(hits); }
      assert AreHits(ms.keys, signers, hits);
    }
    return Err("keys and weights for signing do not meet thresholds");
  }

  // ---- the bitmap ----------------------------------------------------------

  predicate Bit(n: nat, i: nat) {
    if i == 0 then n % 2 == 1 else Bit(n / 2, i - 1)
  }

  /** `n | 1 << i`. */
  function SetBit(n: nat, i: nat): nat
    decreases i
  {
    if i == 0 then n - n % 2 + 1 else 2 * SetBit(n / 2, i - 1) + n % 2
  }

  function Pow2(n: nat): nat {
    if n == 0 then 1 else 2 * Pow2(n - 1)
  }

  lemma {:induction false} SetBitBits(n: nat, i: nat, j: nat)
    ensures Bit(SetBit(n, i), j) <==> j == i || Bit(n, j)
    decreases i
  {
    var m := SetBit(n, i);
    if i == 0 {
      assert m % 2 == 1 && m / 2 == n / 2;
    } else {
      assert m / 2 == SetBit(n / 2, i - 1) && m % 2 == n % 2;
      if j > 0 { SetBitBits(n / 2, i - 1, j - 1); }
    }
  }

  lemma {:induction false} SetBitFits(n: nat, i: nat, width: nat)
    requires i < width && n < Pow2(width)
    ensures SetBit(n, i) < Pow2(width)
    decreases i
  {
    var p := Pow2(width - 1);
    Halves(n, p);
    if i > 0 {
      SetBitFits(n / 2, i - 1, width - 1);
      var m := SetBit(n / 2, i - 1);
      assert m <= p - 1 && 2 * m + n % 2 < 2 * p;
    }
  }

  lemma Halves(n: nat, p: nat)
    requires n < 2 * p
    ensures n / 2 < p && n - n % 2 + 1 < 2 * p
  {
  }

  lemma {:induction false} ZeroBits(i: nat)
    ensures !Bit(0, i)
  {
    if i > 0 { ZeroBits(i - 1); }
  }

  lemma {:induction false} PowerOfTwoGrows(a: nat, b: nat)
    requires a <= b
    ensures Pow2(a) <= Pow2(b)
    decreases b
  {
    if a < b { PowerOfTwoGrows(a, b - 1); }
  }

  /** The bitmap loop of `_signature`: the set bits are exactly the hits, and 16 bits hold them. */
  method Bitmap(hits: seq<nat>, keys: nat) returns (bitmap: nat)
    requires keys < 10 && forall i :: 0 <= i < |hits| ==> hits[i] < keys
    ensures forall j: nat :: Bit(bitmap, j) <==> j in hits
    ensures bitmap < Pow2(keys) && bitmap < 0x1_0000
  {
    bitmap := 0;
    assert Pow2(keys) >= 1 by { PowerOfTwoGrows(0, keys); }
    forall j: nat ensures !Bit(0, j) { ZeroBits(j); }
    for i := 0 to |hits|
      invariant forall j: nat :: Bit(bitmap, j) <==> j in hits[..i]
      invariant bitmap < Pow2(keys)
    {
      forall j: nat ensures Bit(SetBit(bitmap, hits[i]), j) <==> j == hits[i] || Bit(bitmap, j) {
        SetBitBits(bitmap, hits[i], j);
      }
      SetBitFits(bitmap, hits[i], keys);
      assert hits[..i + 1] == hits[..i] + [hits[i]];
      bitmap := SetBit(bitmap, hits[i]);
    }
    assert hits[..|hits|] == hits;
    PowerOfTwoGrows(keys, 9);
  }

  /** The weight at some positions, from `from` on. */
  function WeightOn(weights: seq<int>, at: set<nat>, from: nat): int
    requires from <= |weights|
    decreases |weights| - from
  {
    if from == |weights| then 0 else (if from in at then weights[from] else 0) + WeightOn(weights, at, from + 1)
  }

  /** The weight at the set bits of a bitmap. */
  function BitWeight(weights: seq<int>, bitmap: nat): int {
    WeightOn(weights, set i | i in Upto(|weights|) && Bit(bitmap, i), 0)
  }

  lemma {:induction false} WeightOnMore(weights: seq<int>, at: set<nat>, h: nat, from: nat)
    requires from <= |weights| && h < |weights|
    ensures WeightOn(weights, at + {h}, from)
         == WeightOn(weights, at, from) + if h in at || h < from then 0 else weights[h]
    decreases |weights| - from
  {
    if from < |weights| { WeightOnMore(weights, at, h, from + 1); }
  }

  lemma {:induction false} WeightOnNone(weights: seq<int>, from: nat)
    requires from <= |weights|
    ensures WeightOn(weights, {}, from) == 0
    decreases |weights| - from
  {
    if from < |weights| { WeightOnNone(weights, from + 1); }
  }

  /** Only positions of weight 0 are listed twice. */
  ghost predicate NoDoubleWeight(weights: seq<int>, hits: seq<nat>)
    requires forall i :: 0 <= i < |hits| ==> hits[i] < |weights|
  {
    forall i, j :: 0 <= i < j < |hits| && hits[i] == hits[j] ==> weights[hits[i]] == 0
  }

  lemma {:induction false} CountedOnce(weights: seq<int>, hits: seq<nat>, at: set<nat>)
    requires forall i :: 0 <= i < |weights| ==> weights[i] >= 0
    requires forall i :: 0 <= i < |hits| ==> hits[i] < |weights|
    requires forall x :: x in at <==> x in hits
    ensures WeightOn(weights, at, 0) <= Sum(Picked(weights, hits))
    ensures WeightOn(weights, at, 0) == Sum(Picked(weights, hits)) <==> NoDoubleWeight(weights, hits)
    decreases |hits|
  {
    if hits == [] {
      assert at == {};
      WeightOnNone(weights, 0);
    } else {
      var h, rest := hits[0], hits[1..];
      assert forall x :: x in hits <==> x == h || x in rest;
      var below := if h in rest then at else at - {h};
      CountedOnce(weights, rest, below);
      if h in rest {
        var j :| 0 <= j < |rest| && rest[j] == h;
        assert hits[j + 1] == h;
      } else {
        assert at == below + {h};
        WeightOnMore(weights, below, h, 0);
      }
    }
  }

  /** The signers of a bitmap: what `validate_signers` returned, and the bits it set. */
  ghost predicate Signs<K>(ms: MultiSig<K>, signers: seq<K>, hits: seq<nat>, bitmap: nat)
    requires ms.Valid()
  {
    && AreHits(ms.keys, signers, hits)
    && Sum(Picked(ms.weights, hits)) >= ms.threshold
    && forall j: nat :: Bit(bitmap, j) <==> j in hits
  }

  lemma BitsAreHits<K>(ms: MultiSig<K>, signers: seq<K>, hits: seq<nat>, bitmap: nat) returns (at: set<nat>)
    requires ms.Valid() && Signs(ms, signers, hits, bitmap)
    ensures BitWeight(ms.weights, bitmap) == WeightOn(ms.weights, at, 0)
    ensures forall x :: x in at <==> x in hits
    ensures forall i :: 0 <= i < |hits| ==> hits[i] < |ms.weights|
  {
    at := set i | i in Upto(|ms.weights|) && Bit(bitmap, i);
    forall i | 0 <= i < |hits| ensures hits[i] < |ms.weights| {
      assert IndexOf(ms.keys, signers[i]) == Some(hits[i]);
    }
  }

  /** The weight at the set bits is the weight that was checked exactly if no signer of positive
      weight was listed twice. */
  lemma BitWeightExactly<K>(ms: MultiSig<K>, signers: seq<K>, hits: seq<nat>, bitmap: nat)
    requires ms.Valid() && Signs(ms, signers, hits, bitmap)
    ensures BitWeight(ms.weights, bitmap) == Sum(Picked(ms.weights, hits))
       <==> forall i, j :: 0 <= i < j < |signers| && signers[i] == signers[j] ==> ms.weights[hits[i]] == 0
  {
    var at := BitsAreHits(ms, signers, hits, bitmap);
    CountedOnce(ms.weights, hits, at);
    forall i, j | 0 <= i < j < |signers| ensures signers[i] == signers[j] <==> hits[i] == hits[j] {
      assert IndexOf(ms.keys, signers[i]) == Some(hits[i]) && IndexOf(ms.keys, signers[j]) == Some(hits[j]);
    }
  }

  /** The weight of a list of signers when each counts once, however often it is listed. */
  function SignerWeight<K(==)>(ms: MultiSig<K>, signers: seq<K>): int
    requires ms.Valid()
  {
    if signers == [] then 0
    else
      var rest := SignerWeight(ms, signers[1..]);
      if signers[0] in signers[1..] || signers[0] !in ms.keys then rest
      else ms.weights[IndexOf(ms.keys, signers[0]).value] + rest
  }

  lemma {:induction false} SignerWeightOn<K>(ms: MultiSig<K>, signers: seq<K>, hits: seq<nat>, at: set<nat>)
    requires ms.Valid() && AreHits(ms.keys, signers, hits) && forall x :: x in at <==> x in hits
    ensures WeightOn(ms.weights, at, 0) == SignerWeight(ms, signers)
    decreases |signers|
  {
    if signers == [] {
      assert at == {};
      WeightOnNone(ms.weights, 0);
    } else {
      var s, h, rest := signers[0], hits[0], hits[1..];
      assert IndexOf(ms.keys, s) == Some(h);
      assert AreHits(ms.keys, signers[1..], rest);
      HitAgain(ms.keys, s, h, signers[1..], rest);
      assert forall x :: x in hits <==> x == h || x in rest;
      var below := if h in rest then at else at - {h};
      SignerWeightOn(ms, signers[1..], rest, below);
      if h !in rest {
        assert at == below + {h};
        WeightOnMore(ms.weights, below, h, 0);
      }
    }
  }

  lemma HitAgain<K>(keys: seq<K>, s: K, h: nat, signers: seq<K>, hits: seq<nat>)
    requires AreHits(keys, signers, hits) && IndexOf(keys, s) == Some(h)
    ensures s in signers <==> h in hits
  {
    if s in signers {
      var i :| 0 <= i < |signers| && signers[i] == s;
      assert hits[i] == h;
    }
    if h in hits {
      var i :| 0 <= i < |hits| && hits[i] == h;
      assert IndexOf(keys, signers[i]) == Some(h);
    }
  }

  /** The weight at the set bits is that of the distinct signers: the bitmap reaches the threshold
      exactly if they do, whatever was counted twice by the check. */
  lemma BitmapReachesThresholdExactly<K>(ms: MultiSig<K>, signers: seq<K>, hits: seq<nat>, bitmap: nat)
    requires ms.Valid() && Signs(ms, signers, hits, bitmap)
    ensures BitWeight(ms.weights, bitmap) == SignerWeight(ms, signers)
    ensures BitWeight(ms.weights, bitmap) >= ms.threshold <==> SignerWeight(ms, signers) >= ms.threshold
  {
    var at := BitsAreHits(ms, signers, hits, bitmap);
    SignerWeightOn(ms, signers, hits, at);
  }

  /** Distinct accepted signers: the weights at the set bits reach the threshold. */
  lemma DistinctSignersReachThreshold<K>(ms: MultiSig<K>, signers: seq<K>, hits: seq<nat>, bitmap: nat)
    requires ms.Valid() && Signs(ms, signers, hits, bitmap) && NoDup(signers)
    ensures BitWeight(ms.weights, bitmap) >= ms.threshold
  {
    BitWeightExactly(ms, signers, hits, bitmap);
  }

  /** A signer listed twice is counted twice by the check and once by the bitmap. */
  lemma DoubleSignerFallsShort()
    ensures var ms := MultiSig(["a", "b"], [1, 1], 2);
      ms.Valid() && Signs(ms, ["a", "a"], [0, 0], 1) && BitWeight(ms.weights, 1) == 1 < ms.threshold
  {
    var ms := MultiSig(["a", "b"], [1, 1], 2);
    assert Sum([1, 1]) == 1 + Sum([1]);
    assert Picked([1, 1], [0, 0]) == [1, 1] by { assert [0, 0][1..] == [0]; }
    forall j: nat ensures Bit(1, j) <==> j in [0, 0] { if j > 0 { ZeroBits(j - 1); } }
    var at := set i | i in Upto(2) && Bit(1, i);
    assert at == {0};
    assert WeightOn([1, 1], at, 2) == 0;
    assert WeightOn([1, 1], at, 1) == 0;
  }

  // ---- the byte layout -----------------------------------------------------

  function Joined(blocks: seq<bytes>): bytes {
    if blocks == [] then [] else blocks[0] + Joined(blocks[1..])
  }

  /** A weight or a threshold, in two bytes. */
  function TwoBytes(n: int): bytes {
    ToLe(if n >= 0 then n else 0, 2)
  }

  function Serialized(ms: MultiSig<bytes>): bytes
    requires ms.Valid()
  {
    [MULTISIG] + [|ms.keys|] + Joined(ms.keys) + Joined(MapSeq(ms.weights, TwoBytes)) + TwoBytes(ms.threshold)
  }

  lemma {:induction false} JoinedAppend(blocks: seq<bytes>, b: bytes)
    ensures Joined(blocks + [b]) == Joined(blocks) + b
  {
    if blocks == [] {
      assert blocks + [b] == [b];
    } else {
      assert (blocks + [b])[1..] == blocks[1..] + [b];
      JoinedAppend(blocks[1..], b);
    }
  }

  lemma InRange<K>(ms: MultiSig<K>, i: nat)
    requires ms.Valid() && i < |ms.weights|
    ensures 0 <= ms.weights[i] < Pow256(2) && 0 <= ms.threshold < Pow256(2)
  {
    MaxBounds(ms.weights, i);
    assert Pow256(2) == 65536;
  }

  /** `serialize`, without the base64 text around the bytes. */
  method Serialize(ms: MultiSig<bytes>) returns (all: bytes)
    requires ms.Valid()
    ensures all == Serialized(ms)
  {
    all := [MULTISIG] + [|ms.keys|];
    ghost var head := all;
    for i := 0 to |ms.keys|
      invariant all == head + Joined(ms.keys[..i])
    {
      JoinedAppend(ms.keys[..i], ms.keys[i]);
      assert ms.keys[..i + 1] == ms.keys[..i] + [ms.keys[i]];
      all := all + ms.keys[i];
    }
    assert ms.keys[..|ms.keys|] == ms.keys;
    head := all;
    ghost var blocks := MapSeq(ms.weights, TwoBytes);
    for i := 0 to |ms.weights|
      invariant all == head + Joined(blocks[..i])
    {
      JoinedAppend(blocks[..i], blocks[i]);
      assert blocks[..i + 1] == blocks[..i] + [blocks[i]];
      InRange(ms, i);
      all := all + ToLe(ms.weights[i], 2);
    }
    assert blocks[..|ms.weights|] == blocks;
    InRange(ms, 0);
    all := all + ToLe(ms.threshold, 2);
  }

  /** `count` slices of `width` bytes, from `start` on. */
  function Slices(data: bytes, start: nat, width: nat, count: nat): (bs: seq<bytes>)
    ensures |bs| == count
    decreases count
  {
    if count == 0 then [] else [Slice(data, start, width)] + Slices(data, start + width, width, count - 1)
  }

  function LittleEndians(bs: seq<bytes>): (ns: seq<int>)
    ensures |ns| == |bs|
  {
    MapSeq(bs, (b: bytes) => FromLe(b))
  }

  /** `data[-2:]`. */
  function LastTwo(data: bytes): bytes {
    if |data| < 2 then data else data[|data| - 2..]
  }

  function Deserialized(data: bytes, isKey: bytes -> bool): Result<MultiSig<bytes>> {
    if data == [] || data[0] != MULTISIG then Err("not a multisig")
    else if |data| < 2 then Err("index out of range")
    else
      var weights := Slices(data, 2 + data[1] as nat * KEY_LEN, 2, data[1]);
      FromParts(Slices(data, 2, KEY_LEN, data[1]), weights, LastTwo(data), isKey)
  }

  predicate AllKeys(isKey: bytes -> bool, blocks: seq<bytes>) {
    forall i :: 0 <= i < |blocks| ==> isKey(blocks[i])
  }

  function FromParts(blocks: seq<bytes>, weights: seq<bytes>, threshold: bytes,
                     isKey: bytes -> bool): Result<MultiSig<bytes>> {
    if !AllKeys(isKey, blocks) then Err("not a keystring")
    else Construct(blocks, LittleEndians(weights), FromLe(threshold))
  }

  lemma {:induction false} SlicesAt(data: bytes, start: nat, width: nat, count: nat, i: nat)
    requires i < count
    ensures Slices(data, start, width, count)[i] == Slice(data, start + i * width, width)
    decreases count
  {
    if i > 0 {
      SlicesAt(data, start + width, width, count - 1, i - 1);
      assert start + width + (i - 1) * width == start + i * width;
    }
  }

  /** The loops of `deserialize` over slices of the data. */
  method TakeSlices(data: bytes, start: nat, width: nat, count: nat) returns (bs: seq<bytes>)
    ensures bs == Slices(data, start, width, count)
  {
    bs := [];
    for i := 0 to count
      invariant bs == Slices(data, start, width, count)[..i]
    {
      SlicesAt(data, start, width, count, i);
      bs := bs + [Slice(data, start + i * width, width)];
    }
  }

  /** `deserialize`; `isKey` says which blocks decode as keystrings. */
  method Deserialize(data: bytes, isKey: bytes -> bool) returns (r: Result<MultiSig<bytes>>)
    ensures r == Deserialized(data, isKey)
  {
    if data == [] || data[0] != MULTISIG { return Err("not a multisig"); }
    if |data| < 2 { return Err("index out of range"); }
    var count := data[1];
    var blocks := TakeSlices(data, 2, KEY_LEN, count);
    for i := 0 to count
      invariant forall j :: 0 <= j < i ==> isKey(blocks[j])
    {
      if !isKey(blocks[i]) { return Err("not a keystring"); }
    }
    var weights := TakeSlices(data, 2 + count * KEY_LEN, 2, count);
    return Construct(blocks, LittleEndians(weights), FromLe(LastTwo(data)));
  }

  lemma {:induction false} JoinedLength(blocks: seq<bytes>, width: nat)
    requires forall i :: 0 <= i < |blocks| ==> |blocks[i]| == width
    ensures |Joined(blocks)| == |blocks| * width
  {
    if blocks != [] {
      JoinedLength(blocks[1..], width);
      assert |blocks| * width == width + (|blocks| - 1) * width;
    }
  }

  lemma {:induction false} SlicesOfJoined(before: bytes, blocks: seq<bytes>, after: bytes, width: nat)
    requires forall i :: 0 <= i < |blocks| ==> |blocks[i]| == width
    ensures Slices(before + Joined(blocks) + after, |before|, width, |blocks|) == blocks
    decreases |blocks|
  {
    if blocks != [] {
      var data, rest := before + Joined(blocks) + after, Joined(blocks[1..]);
      assert data == before + blocks[0] + rest + after by {
        assert before + (blocks[0] + rest) + after == before + blocks[0] + rest + after;
      }
      SlicesOfJoined(before + blocks[0], blocks[1..], after, width);
      assert data[|before|..|before| + width] == blocks[0];
    }
  }

  lemma {:induction false} JoinedSlices(data: bytes, start: nat, width: nat, count: nat, end: nat)
    requires end == start + count * width && end <= |data|
    ensures Joined(Slices(data, start, width, count)) == data[start..end]
    ensures forall i :: 0 <= i < count ==> |Slices(data, start, width, count)[i]| == width
    decreases count
  {
    if count > 0 {
      var next := start + width;
      OneBlockLess(start, width, count, end, next);
      JoinedSlices(data, next, width, count - 1, end);
      assert data[start..end] == data[start..next] + data[next..end];
      assert Slice(data, start, width) == data[start..next];
    }
  }

  lemma OneBlockLess(start: nat, width: nat, count: nat, end: nat, next: nat)
    requires count > 0 && end == start + count * width && next == start + width
    ensures end == next + (count - 1) * width && next <= end
  {
    assert count * width == (count - 1) * width + width;
  }

  lemma WeightsRestored<K>(ms: MultiSig<K>, blocks: seq<bytes>)
    requires ms.Valid() && blocks == MapSeq(ms.weights, TwoBytes)
    ensures LittleEndians(blocks) == ms.weights && FromLe(TwoBytes(ms.threshold)) == ms.threshold
  {
    forall i | 0 <= i < |ms.weights| ensures LittleEndians(blocks)[i] == ms.weights[i] {
      InRange(ms, i);
      FromToLe(ms.weights[i], 2);
    }
    InRange(ms, 0);
    FromToLe(ms.threshold, 2);
  }

  /** The parts of the serialized form are where `deserialize` looks for them. */
  lemma PartsInPlace(data: bytes, head: bytes, keys: seq<bytes>, blocks: seq<bytes>, threshold: bytes)
    requires |head| == 2 && |threshold| == 2 && data == head + Joined(keys) + Joined(blocks) + threshold
    requires forall i :: 0 <= i < |keys| ==> |keys[i]| == KEY_LEN
    requires forall i :: 0 <= i < |blocks| ==> |blocks[i]| == 2
    ensures Slices(data, 2, KEY_LEN, |keys|) == keys
    ensures Slices(data, 2 + |keys| * KEY_LEN, 2, |blocks|) == blocks
    ensures LastTwo(data) == threshold
  {
    JoinedLength(keys, KEY_LEN);
    SlicesOfJoined(head, keys, Joined(blocks) + threshold, KEY_LEN);
    assert data == head + Joined(keys) + (Joined(blocks) + threshold);
    SlicesOfJoined(head + Joined(keys), blocks, threshold, 2);
  }

  /** `deserialize` undoes `serialize` for every set the constructor accepts. */
  lemma RoundTrip(ms: MultiSig<bytes>, isKey: bytes -> bool)
    requires ms.Valid() && forall i :: 0 <= i < |ms.keys| ==> isKey(ms.keys[i]) && |ms.keys[i]| == KEY_LEN
    ensures Deserialized(Serialized(ms), isKey) == Ok(ms)
  {
    var blocks, threshold := MapSeq(ms.weights, TwoBytes), TwoBytes(ms.threshold);
    var head: bytes := [MULTISIG] + [|ms.keys|];
    PartsInPlace(Serialized(ms), head, ms.keys, blocks, threshold);
    WeightsRestored(ms, blocks);
  }

  lemma {:induction false} RewrittenWeights(bs: seq<bytes>)
    requires forall i :: 0 <= i < |bs| ==> |bs[i]| == 2
    ensures MapSeq(LittleEndians(bs), TwoBytes) == bs
  {
    forall i | 0 <= i < |bs| ensures TwoBytes(LittleEndians(bs)[i]) == bs[i] {
      ToFromLe(bs[i]);
    }
  }

  /** The parts that are read tile the data. */
  lemma Tiled(data: bytes, n: nat, k: nat, w: nat, keys: seq<bytes>, weights: seq<bytes>)
    requires |data| >= 4 && k == 2 + n * KEY_LEN && w == k + n * 2 && |data| == w + 2
    requires keys == Slices(data, 2, KEY_LEN, n) && weights == Slices(data, k, 2, n)
    ensures data == data[..2] + Joined(keys) + Joined(weights) + LastTwo(data)
    ensures forall i :: 0 <= i < n ==> |weights[i]| == 2
  {
    JoinedSlices(data, 2, KEY_LEN, n, k);
    JoinedSlices(data, k, 2, n, w);
  }

  lemma SerializedLength(ms: MultiSig<bytes>)
    requires ms.Valid() && forall i :: 0 <= i < |ms.keys| ==> |ms.keys[i]| == KEY_LEN
    ensures |Serialized(ms)| == 4 + 35 * |ms.keys|
  {
    JoinedLength(ms.keys, KEY_LEN);
    JoinedLength(MapSeq(ms.weights, TwoBytes), 2);
  }

  /** A weight or the threshold, low byte first. */
  lemma TwoBytesAre(n: int)
    requires 0 <= n < 0x1_0000
    ensures TwoBytes(n) == [n % 256, n / 256]
  {
    assert ToLe(n, 2) == [n % 256] + ToLe(n / 256, 1) && ToLe(n / 256, 1) == [n / 256 % 256] + [];
  }

  predicate KeyAt(data: bytes, i: nat, key: bytes) {
    Slice(data, 2 + 33 * i, 33) == key
  }

  predicate NumberAt(data: bytes, at: nat, number: int) {
    0 <= number < 0x1_0000 && Slice(data, at, 2) == [number % 256, number / 256]
  }

  lemma KeysInPlace(data: bytes, keys: seq<bytes>)
    requires Slices(data, 2, KEY_LEN, |keys|) == keys
    ensures forall i :: 0 <= i < |keys| ==> KeyAt(data, i, keys[i])
  {
    forall i | 0 <= i < |keys| ensures KeyAt(data, i, keys[i]) { SlicesAt(data, 2, KEY_LEN, |keys|, i); }
  }

  lemma WeightAt(ms: MultiSig<bytes>, data: bytes, blocks: seq<bytes>, n: nat, i: nat)
    requires ms.Valid() && n == |ms.keys| && i < n && blocks == MapSeq(ms.weights, TwoBytes)
    requires blocks == Slices(data, 2 + n * KEY_LEN, 2, n)
    ensures NumberAt(data, 2 + 33 * n + 2 * i, ms.weights[i])
  {
    SlicesAt(data, 2 + n * KEY_LEN, 2, n, i);
    MaxBounds(ms.weights, i);
    TwoBytesAre(ms.weights[i]);
  }

  lemma WeightsInPlace(ms: MultiSig<bytes>, data: bytes, blocks: seq<bytes>, n: nat)
    requires ms.Valid() && n == |ms.keys| && blocks == MapSeq(ms.weights, TwoBytes)
    requires blocks == Slices(data, 2 + n * KEY_LEN, 2, n)
    ensures forall i :: 0 <= i < n ==> NumberAt(data, 2 + 33 * n + 2 * i, ms.weights[i])
  {
    forall i | 0 <= i < n ensures NumberAt(data, 2 + 33 * n + 2 * i, ms.weights[i]) {
      WeightAt(ms, data, blocks, n, i);
    }
  }

  lemma ThresholdInPlace(ms: MultiSig<bytes>, data: bytes, n: nat)
    requires ms.Valid() && |data| == 4 + 35 * n && LastTwo(data) == TwoBytes(ms.threshold)
    ensures NumberAt(data, 2 + 35 * n, ms.threshold)
  {
    InRange(ms, 0);
    TwoBytesAre(ms.threshold);
  }

  lemma PartsSerialized(ms: MultiSig<bytes>, n: nat, data: bytes, blocks: seq<bytes>)
    requires ms.Valid() && n == |ms.keys| && (forall i :: 0 <= i < n ==> |ms.keys[i]| == 33) && data == Serialized(ms)
    requires blocks == MapSeq(ms.weights, TwoBytes)
    ensures |data| == 4 + 35 * n && data[0] == MULTISIG && data[1] == n
    ensures Slices(data, 2, KEY_LEN, n) == ms.keys && Slices(data, 2 + n * KEY_LEN, 2, n) == blocks
    ensures LastTwo(data) == TwoBytes(ms.threshold)
  {
    var head: bytes := [MULTISIG] + [n];
    SerializedLength(ms);
    PartsInPlace(data, head, ms.keys, blocks, TwoBytes(ms.threshold));
  }

  /** The bytes: the scheme 3, the number of keys, the keys of 33 bytes, then the weights and the threshold in
      two bytes each, low byte first. */
  lemma SerializedLayout(ms: MultiSig<bytes>, n: nat, data: bytes)
    requires ms.Valid() && n == |ms.keys| && (forall i :: 0 <= i < n ==> |ms.keys[i]| == 33) && data == Serialized(ms)
    ensures |data| == 4 + 35 * n && data[0] == 3 && data[1] == n
    ensures forall i :: 0 <= i < n ==> KeyAt(data, i, ms.keys[i])
    ensures forall i :: 0 <= i < n ==> NumberAt(data, 2 + 33 * n + 2 * i, ms.weights[i])
    ensures NumberAt(data, 2 + 35 * n, ms.threshold)
  {
    var blocks := MapSeq(ms.weights, TwoBytes);
    PartsSerialized(ms, n, data, blocks);
    KeysInPlace(data, ms.keys);
    WeightsInPlace(ms, data, blocks, n);
    ThresholdInPlace(ms, data, n);
  }

  lemma Reserialized(data: bytes, n: nat, k: nat, ms: MultiSig<bytes>)
    requires ms.Valid() && n == |ms.keys| && k == 2 + n * KEY_LEN && |data| == k + n * 2 + 2
    requires data[..2] == [MULTISIG] + [n]
    requires ms.keys == Slices(data, 2, KEY_LEN, n) && ms.weights == LittleEndians(Slices(data, k, 2, n))
    requires ms.threshold == FromLe(LastTwo(data))
    ensures Serialized(ms) == data
  {
    var weights := Slices(data, k, 2, n);
    Tiled(data, n, k, k + n * 2, ms.keys, weights);
    RewrittenWeights(weights);
    ToFromLe(LastTwo(data));
  }

  /** `ms` is what the data hold at the places its key count gives. */
  predicate ReadFrom(data: bytes, ms: MultiSig<bytes>, n: nat) {
    && |data| >= 2 && data[0] == MULTISIG && data[1] == n == |ms.keys|
    && ms.keys == Slices(data, 2, KEY_LEN, n)
    && ms.weights == LittleEndians(Slices(data, 2 + n * KEY_LEN, 2, n))
    && ms.threshold == FromLe(LastTwo(data))
    && forall i :: 0 <= i < |ms.keys| ==> |ms.keys[i]| == KEY_LEN
  }

  lemma CanonicalByLength(data: bytes, ms: MultiSig<bytes>, n: nat)
    requires ms.Valid() && n == |ms.keys| && ReadFrom(data, ms, n)
    ensures Serialized(ms) == data <==> |data| == 4 + 35 * n
  {
    SerializedLength(ms);
    if |data| == 4 + 35 * n {
      assert data[..2] == [MULTISIG] + [n];
      Reserialized(data, n, 2 + n * KEY_LEN, ms);
    }
  }

  /** Accepted bytes are the serialization of the set they give exactly if they are as long as their
      key count says; `deserialize` itself checks no length, so shorter or longer bytes can be accepted. */
  lemma AcceptedBytesAreCanonical(data: bytes, isKey: bytes -> bool, ms: MultiSig<bytes>, n: nat)
    requires forall b :: isKey(b) ==> |b| == KEY_LEN
    requires Deserialized(data, isKey) == Ok(ms) && n == |ms.keys|
    ensures ms.Valid() && (Serialized(ms) == data <==> |data| == 4 + 35 * n)
  {
    CanonicalByLength(data, ms, n);
  }

  /** Two bytes too many between the weights and the threshold are accepted all the same. */
  lemma LongerBytesAccepted(k0: bytes, k1: bytes, isKey: bytes -> bool)
    requires |k0| == |k1| == KEY_LEN && isKey(k0) && isKey(k1)
    ensures var data := [MULTISIG, 2] + k0 + k1 + [1, 0, 1, 0] + [9, 9] + [1, 0];
      Deserialized(data, isKey) == Ok(MultiSig([k0, k1], [1, 1], 1)) && |data| != 4 + 35 * 2
  {
    var data := [MULTISIG, 2] + k0 + k1 + [1, 0, 1, 0] + [9, 9] + [1, 0];
    var w: bytes := [1, 0];
    assert Slice(data, 2, 33) == k0 && Slice(data, 35, 33) == k1;
    assert Slice(data, 68, 2) == w && Slice(data, 70, 2) == w && LastTwo(data) == w;
    TwoOfOne(data, k0, k1, w, isKey);
  }

  lemma TwoOfOne(data: bytes, k0: bytes, k1: bytes, w: bytes, isKey: bytes -> bool)
    requires |data| > 2 && data[0] == MULTISIG && data[1] == 2 && w == [1, 0]
    requires Slice(data, 2, 33) == k0 && Slice(data, 35, 33) == k1 && isKey(k0) && isKey(k1)
    requires Slice(data, 68, 2) == w && Slice(data, 70, 2) == w && LastTwo(data) == w
    ensures Deserialized(data, isKey) == Ok(MultiSig([k0, k1], [1, 1], 1))
  {
    TwoSlices(data, 2, 33);
    TwoSlices(data, 68, 2);
    assert w[1..] == [0] && w[1..][1..] == [];
    assert FromLe(w[1..]) == 0;
    assert FromLe(w) == 1;
    assert LittleEndians([w, w]) == [1, 1];
    assert Sum([1, 1]) == 1 + Sum([1]);
  }

  lemma TwoSlices(data: bytes, start: nat, width: nat)
    ensures Slices(data, start, width, 2) == [Slice(data, start, width), Slice(data, start + width, width)]
  {
    assert Slices(data, start + width, width, 1) == [Slice(data, start + width, width)];
  }
}
