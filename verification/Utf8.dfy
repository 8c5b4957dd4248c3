// UTF-8, which the argument encoder applies to text, and its inverse.

module Utf8 {
  import opened Base

  function EncodeChar(c: char): (b: bytes)
    ensures 1 <= |b| <= 4
  {
    var n := c as int;
    if n < 0x80 then [n]
    else if n < 0x800 then [0xC0 + n / 64, 0x80 + n % 64]
    else if n < 0x10000 then [0xE0 + n / 4096, 0x80 + n / 64 % 64, 0x80 + n % 64]
    else [0xF0 + n / 262144, 0x80 + n / 4096 % 64, 0x80 + n / 64 % 64, 0x80 + n % 64]
  }

  function Encode(s: string): bytes {
    if s == "" then [] else EncodeChar(s[0]) + Encode(s[1..])
  }

  /** The bytes of the first character, by its leading byte. */
  function CharWidth(first: byte): (w: nat)
    ensures 1 <= w <= 4
  {
    if first < 0x80 then 1 else if first < 0xE0 then 2 else if first < 0xF0 then 3 else 4
  }

  function Six(b: byte): int { b as int - 0x80 }

  function CharCode(b: bytes): int
    requires 1 <= |b| <= 4
  {
    var lead: int := b[0];
    if |b| == 1 then lead
    else if |b| == 2 then (lead - 0xC0) * 64 + Six(b[1])
    else if |b| == 3 then (lead - 0xE0) * 4096 + Six(b[1]) * 64 + Six(b[2])
    else (lead - 0xF0) * 262144 + Six(b[1]) * 4096 + Six(b[2]) * 64 + Six(b[3])
  }

  function Decode(b: bytes): Option<string> {
    if b == [] then Some("")
    else
      var w := CharWidth(b[0]);
      if |b| < w then None
      else
        var n := CharCode(b[..w]);
        match Decode(b[w..])
        case None => None
        case Some(s) => if 0 <= n < 0xD800 || 0xE000 <= n < 0x11_0000 then Some([n as char] + s) else None
  }

  lemma CharRoundTrip(c: char)
    ensures CharWidth(EncodeChar(c)[0]) == |EncodeChar(c)| && CharCode(EncodeChar(c)) == c as int
  {
    var n := c as int;
    assert n == n / 64 * 64 + n % 64;
    assert n / 64 == n / 64 / 64 * 64 + n / 64 % 64 && n / 64 / 64 == n / 4096;
    assert n / 4096 == n / 4096 / 64 * 64 + n / 4096 % 64 && n / 4096 / 64 == n / 262144;
  }

  lemma {:induction false} RoundTrip(s: string)
    ensures Decode(Encode(s)) == Some(s)
  {
    if s != "" {
      var first, rest := EncodeChar(s[0]), Encode(s[1..]);
      CharRoundTrip(s[0]);
      RoundTrip(s[1..]);
      assert (first + rest)[..|first|] == first && (first + rest)[|first|..] == rest;
      assert [s[0]] + s[1..] == s;
    }
  }
}
