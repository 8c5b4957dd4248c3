// Values shared by every module: bytes, results that model raised exceptions,
// hexadecimal and decimal text, and the 32-byte addresses that name objects.

module Base {
  type byte = b: int | 0 <= b < 256
  type bytes = seq<byte>

  datatype Option<+T> = None | Some(value: T)

  /** `Err` is a raised exception; the text only tells the raise sites apart. */
  datatype Result<+T> = Ok(value: T) | Err(why: string) {
    predicate IsFailure() { Err? }
    function PropagateFailure<U>(): Result<U>
      requires Err?
    {
      Err(why)
    }
    function Extract(): T
      requires Ok?
    {
      value
    }
  }

  /** A Python sequence comprehension `[f(x) for x in xs]`. */
  function MapSeq<A, B>(xs: seq<A>, f: A -> B): (ys: seq<B>)
    ensures |ys| == |xs|
    ensures forall i :: 0 <= i < |xs| ==> ys[i] == f(xs[i])
  {
    seq(|xs|, i requires 0 <= i < |xs| => f(xs[i]))
  }

  /** The first elements of such a comprehension, where `f` may raise. */
  ghost predicate MappedSoFar<A, B>(f: A -> Result<B>, xs: seq<A>, ys: seq<B>) {
    |ys| <= |xs| && forall i :: 0 <= i < |ys| ==> f(xs[i]) == Ok(ys[i])
  }

  lemma MappedTail<A, B>(f: A -> Result<B>, xs: seq<A>, ys: seq<B>)
    requires MappedSoFar(f, xs, ys) && ys != []
    ensures f(xs[0]) == Ok(ys[0]) && MappedSoFar(f, xs[1..], ys[1..])
  {
  }

  lemma MappedOneMore<A, B>(f: A -> Result<B>, xs: seq<A>, ys: seq<B>, y: B)
    requires MappedSoFar(f, xs, ys) && |ys| < |xs| && f(xs[|ys|]) == Ok(y)
    ensures MappedSoFar(f, xs, ys + [y])
  {
  }

  ghost predicate NoDup<T>(xs: seq<T>) {
    forall i, j :: 0 <= i < j < |xs| ==> xs[i] != xs[j]
  }

  /** The indices below `n`. */
  function Upto(n: nat): (s: set<nat>)
    ensures forall i :: i in s <==> 0 <= i < n
    ensures |s| == n
  {
    if n == 0 then {} else Upto(n - 1) + {n - 1}
  }

  /** A duplicate-free sequence is as long as its set of elements. */
  lemma {:induction false} NoDupLength<T>(xs: seq<T>, s: set<T>)
    requires NoDup(xs)
    requires forall x :: x in xs <==> x in s
    ensures |xs| == |s|
  {
    if xs == [] {
      assert s == {};
    } else {
      var r := xs[..|xs| - 1];
      var last := xs[|xs| - 1];
      assert xs == r + [last];
      forall x ensures x in r <==> x in s - {last} {
        if x in r { var k :| 0 <= k < |r| && r[k] == x; assert xs[k] == x; }
      }
      NoDupLength(r, s - {last});
    }
  }

  /** A Python slice: cut at the end of the data instead of raising. */
  function Slice(data: bytes, from: nat, len: nat): (b: bytes)
    ensures |b| <= len
    ensures |b| == len <==> len == 0 || from + len <= |data|
  {
    if from >= |data| then [] else if from + len <= |data| then data[from..from + len] else data[from..]
  }

  // ---- hexadecimal text ----------------------------------------------------

  function HexDigit(d: int): char
    requires 0 <= d < 16
  {
    if d < 10 then '0' + d as char else 'a' + (d - 10) as char
  }

  lemma HexValueDigit(c: char)
    requires '0' <= c <= '9' || 'a' <= c <= 'f'
    ensures HexValue(c).Some? && 0 <= HexValue(c).value < 16 && HexDigit(HexValue(c).value) == c
  {
  }

  function HexValue(c: char): (d: Option<int>)
    ensures d.Some? ==> 0 <= d.value < 16
  {
    if '0' <= c <= '9' then Some(c as int - '0' as int)
    else if 'a' <= c <= 'f' then Some(c as int - 'a' as int + 10)
    else if 'A' <= c <= 'F' then Some(c as int - 'A' as int + 10)
    else None
  }

  function Hexlify(b: bytes): (s: string)
    ensures |s| == 2 * |b|
  {
    if b == [] then "" else [HexDigit(b[0] / 16), HexDigit(b[0] % 16)] + Hexlify(b[1..])
  }

  function Unhexlify(s: string): Option<bytes> {
    if s == "" then Some([])
    else if |s| == 1 then None
    else
      match (HexValue(s[0]), HexValue(s[1]), Unhexlify(s[2..]))
      case (Some(h), Some(l), Some(rest)) => Some([h * 16 + l] + rest)
      case _ => None
  }

  lemma {:induction false} UnhexlifyHexlify(b: bytes)
    ensures Unhexlify(Hexlify(b)) == Some(b)
  {
    if b != [] {
      UnhexlifyHexlify(b[1..]);
      assert Hexlify(b)[2..] == Hexlify(b[1..]);
      assert [b[0]] + b[1..] == b;
    }
  }

  predicate LowerHex(s: string) {
    forall c :: c in s ==> '0' <= c <= '9' || 'a' <= c <= 'f'
  }

  lemma HexlifyCons(b: bytes, h: int, l: int, rest: bytes)
    requires 0 <= h < 16 && 0 <= l < 16 && b == [h * 16 + l] + rest
    ensures Hexlify(b) == [HexDigit(h), HexDigit(l)] + Hexlify(rest)
  {
    assert b[0] / 16 == h && b[0] % 16 == l && b[1..] == rest;
  }

  lemma {:induction false} HexlifyUnhexlify(s: string)
    requires LowerHex(s) && Unhexlify(s).Some?
    ensures Hexlify(Unhexlify(s).value) == s
  {
    if s != "" {
      var b := Unhexlify(s).value;
      assert s[0] in s && s[1] in s;
      assert forall c :: c in s[2..] ==> c in s;
      HexlifyUnhexlify(s[2..]);
      HexValueDigit(s[0]);
      HexValueDigit(s[1]);
      var h, l, rest := HexValue(s[0]).value, HexValue(s[1]).value, Unhexlify(s[2..]).value;
      assert b == [h * 16 + l] + rest;
      HexlifyCons(b, h, l, rest);
      assert s == [s[0], s[1]] + s[2..];
    }
  }

  lemma {:induction false} HexlifyLower(b: bytes)
    ensures LowerHex(Hexlify(b))
  {
    if b != [] { HexlifyLower(b[1..]); }
  }

  // ---- addresses -----------------------------------------------------------

  type Address = a: bytes | |a| == 32 witness seq(32, _ => 0)

  function Zeros(n: nat): (s: string)
    ensures |s| == n
  {
    seq(n, _ => '0')
  }

  /** Python's `str.zfill`: pads on the left, after a leading sign. */
  function Zfill(s: string, width: nat): string {
    if |s| >= width then s
    else if s != "" && (s[0] == '+' || s[0] == '-') then [s[0]] + Zeros(width - |s|) + s[1..]
    else Zeros(width - |s|) + s
  }

  function DropTwo(s: string): string {
    if |s| <= 2 then "" else s[2..]
  }

  /** `hexstring_to_sui_id` with its default fill length of 64. */
  function SuiId(s: string): string {
    if |s| < 64 then "0x" + Zfill(if 'x' in s || 'X' in s then DropTwo(s) else s, 64) else s
  }

  /** `Address.from_str`: the constructor accepts exactly 32 bytes. */
  function ParseAddress(s: string): Option<Address> {
    match Unhexlify(DropTwo(SuiId(s)))
    case Some(b) => if |b| == 32 then Some(b) else None
    case None => None
  }

  /** `Address.to_address_str`. */
  function PrintAddress(a: Address): (s: string)
    ensures |s| == 66
  {
    "0x" + Hexlify(a)
  }

  lemma {:induction false} HexDigitsAt(b: bytes, i: nat)
    requires i < |b|
    ensures Hexlify(b)[2 * i] == "0123456789abcdef"[b[i] / 16]
    ensures Hexlify(b)[2 * i + 1] == "0123456789abcdef"[b[i] % 16]
  {
    if i == 0 {
      DigitIs(b[0] / 16);
      DigitIs(b[0] % 16);
    } else {
      HexDigitsAt(b[1..], i - 1);
    }
  }

  lemma DigitIs(d: nat)
    requires d < 16
    ensures HexDigit(d) == "0123456789abcdef"[d]
  {
  }

  /** An address in text: the prefix, and two lower-case digits for each byte in turn. */
  lemma AddressDigits(a: Address, i: nat)
    requires i < 32
    ensures PrintAddress(a)[0] == '0' && PrintAddress(a)[1] == 'x'
    ensures PrintAddress(a)[2 + 2 * i] == "0123456789abcdef"[a[i] / 16]
    ensures PrintAddress(a)[3 + 2 * i] == "0123456789abcdef"[a[i] % 16]
  {
    HexDigitsAt(a, i);
  }

  lemma ParsePrintAddress(a: Address)
    ensures ParseAddress(PrintAddress(a)) == Some(a)
    ensures SuiId(PrintAddress(a)) == PrintAddress(a)
  {
    UnhexlifyHexlify(a);
    assert DropTwo(PrintAddress(a)) == Hexlify(a);
  }

  /** Text that `to_address_str` can produce: the form in which ids are compared. */
  predicate Canonical(s: string) {
    ParseAddress(s).Some? && PrintAddress(ParseAddress(s).value) == s
  }

  /** Hexadecimal digits in either case. */
  predicate Hex(s: string) {
    forall c :: c in s ==> HexValue(c).Some?
  }

  lemma {:induction false} UnhexlifyTotal(s: string)
    requires Hex(s)
    ensures Unhexlify(s).Some? <==> |s| % 2 == 0
    ensures Unhexlify(s).Some? ==> |Unhexlify(s).value| == |s| / 2
  {
    if |s| >= 2 {
      assert s[0] in s && s[1] in s;
      assert forall c :: c in s[2..] ==> c in s;
      UnhexlifyTotal(s[2..]);
    }
  }

  /** Padding keeps hexadecimal digits, and their case. */
  lemma HexFill(h: string)
    requires Hex(h) && |h| < 64
    ensures Hex(Zfill(h, 64)) && |Zfill(h, 64)| == 64
    ensures LowerHex(Zfill(h, 64)) <==> LowerHex(h)
  {
    if h != "" { assert h[0] in h; }
    var z := Zeros(64 - |h|);
    assert forall c :: c in z ==> c == '0';
    assert forall c :: c in z + h <==> c in z || c in h;
  }

  /** The canonical ids are the prefix and 64 lower-case digits. */
  lemma CanonicalText(h: string)
    requires Hex(h) && |h| == 64
    ensures ParseAddress("0x" + h).Some? && (Canonical("0x" + h) <==> LowerHex(h))
  {
    var s := "0x" + h;
    assert SuiId(s) == s && DropTwo(s) == h;
    UnhexlifyTotal(h);
    var a := ParseAddress(s).value;
    HexlifyLower(a);
    if LowerHex(h) { HexlifyUnhexlify(h); }
    assert PrintAddress(a)[2..] == Hexlify(a) && s[2..] == h;
  }

  /** What `hexstring_to_sui_id` makes of a prefixed id. One of 62 or 63 digits is returned as it is,
      because the length test counts the prefix, and does not parse; every other id of at most 64
      digits parses, and is canonical exactly if no digit is an upper-case letter. */
  lemma PrefixedIdCanonical(h: string)
    requires Hex(h)
    ensures ParseAddress(SuiId("0x" + h)).Some? <==> |h| < 62 || |h| == 64
    ensures Canonical(SuiId("0x" + h)) <==> (|h| < 62 || |h| == 64) && LowerHex(h)
  {
    var s := "0x" + h;
    assert s[1] == 'x' && DropTwo(s) == h;
    if |h| < 62 {
      HexFill(h);
      CanonicalText(Zfill(h, 64));
    } else if |h| == 64 {
      CanonicalText(h);
    } else {
      UnhexlifyTotal(h);
    }
  }

  /** Without the prefix the padding works below 64 digits. A longer id keeps lacking the prefix; one
      of 66 digits parses all the same, without its first two. */
  lemma BareIdCanonical(h: string)
    requires Hex(h)
    ensures ParseAddress(SuiId(h)).Some? <==> |h| < 64 || |h| == 66
    ensures Canonical(SuiId(h)) <==> |h| < 64 && LowerHex(h)
  {
    assert 'x' !in h && 'X' !in h;
    if |h| < 64 {
      HexFill(h);
      CanonicalText(Zfill(h, 64));
    } else {
      assert SuiId(h) == h && DropTwo(h) == h[2..];
      assert forall c :: c in h[2..] ==> c in h;
      UnhexlifyTotal(h[2..]);
      assert h[1] in h;
    }
  }

  // ---- decimal text --------------------------------------------------------

  function Digit(d: int): char
    requires 0 <= d < 10
  {
    '0' + d as char
  }

  /** `str(n)` of a non-negative integer. */
  function Decimal(n: nat): (s: string)
    ensures s != ""
  {
    if n < 10 then [Digit(n)] else Decimal(n / 10) + [Digit(n % 10)]
  }

  /** One digit after the other, the units last. */
  lemma DecimalDigits(n: nat, d: nat)
    requires d < 10
    ensures Decimal(d) == ["0123456789"[d]]
    ensures n > 0 ==> Decimal(10 * n + d) == Decimal(n) + ["0123456789"[d]]
  {
    assert Digit(d) == "0123456789"[d];
    if n > 0 { assert (10 * n + d) / 10 == n && (10 * n + d) % 10 == d; }
  }

  /** `int(s)` of a digit string. */
  function ParseDecimal(s: string): Option<nat> {
    if s == "" then None
    else
      var last := s[|s| - 1];
      if !('0' <= last <= '9') then None
      else if |s| == 1 then Some(last as int - '0' as int)
      else
        match ParseDecimal(s[..|s| - 1])
        case Some(n) => Some(n * 10 + (last as int - '0' as int))
        case None => None
  }

  lemma {:induction false} ParseDecimalInverse(n: nat)
    ensures ParseDecimal(Decimal(n)) == Some(n)
  {
    if n >= 10 {
      ParseDecimalInverse(n / 10);
      assert Decimal(n)[..|Decimal(n)| - 1] == Decimal(n / 10);
    }
  }
}
