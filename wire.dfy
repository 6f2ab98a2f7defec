/**
 * Primitive values of the broker's binary framing: big-endian two's-complement
 * 16- and 32-bit integers and strings prefixed by a 16-bit length.
 *
 * Encoders append fixed-width fields and, like fixed-width packing, keep only the
 * low bits of an out-of-range integer. Decoders consume a prefix of the bytes they
 * are given and return the value together with the bytes that remain, or None when
 * the input is too short or malformed.
 */
module Wire {
  import opened Wrappers

  type Byte = b: int | 0 <= b < 0x100

  const INT16_MIN: int := -0x8000
  const INT16_MAX: int := 0x7FFF
  const INT32_MIN: int := -0x8000_0000
  const INT32_MAX: int := 0x7FFF_FFFF

  predicate IsInt16(x: int) { INT16_MIN <= x <= INT16_MAX }

  predicate IsInt32(x: int) { INT32_MIN <= x <= INT32_MAX }

  /** A string the 16-bit length prefix can describe, with one byte per character. */
  predicate IsWireString(s: string)
  {
    |s| <= INT16_MAX && forall c :: c in s ==> c as int < 0x100
  }

  /** The signed 16-bit value with the same low 16 bits as `x`. */
  function Wrap16(x: int): (r: int)
    ensures IsInt16(r)
    ensures (x - r) % 0x1_0000 == 0
    ensures IsInt16(x) ==> r == x
  {
    var u := x % 0x1_0000;
    if u > INT16_MAX then u - 0x1_0000 else u
  }

  /** The signed 32-bit value with the same low 32 bits as `x`. */
  function Wrap32(x: int): (r: int)
    ensures IsInt32(r)
    ensures (x - r) % 0x1_0000_0000 == 0
    ensures IsInt32(x) ==> r == x
  {
    var u := x % 0x1_0000_0000;
    if u > INT32_MAX then u - 0x1_0000_0000 else u
  }

  function EncodeUint16(u: int): (r: seq<Byte>)
    requires 0 <= u < 0x1_0000
  {
    [u / 0x100, u % 0x100]
  }

  /** The unsigned value of two bytes, most significant first. */
  function Uint16Of(hi: Byte, lo: Byte): (u: int)
    ensures 0 <= u < 0x1_0000
  {
    hi as int * 0x100 + lo as int
  }

  function EncodeInt16(x: int): (r: seq<Byte>)
    ensures |r| == 2
  {
    EncodeUint16(x % 0x1_0000)
  }

  function EncodeInt32(x: int): (r: seq<Byte>)
    ensures |r| == 4
  {
    var u := x % 0x1_0000_0000;
    EncodeUint16(u / 0x1_0000) + EncodeUint16(u % 0x1_0000)
  }

  /** One byte per character; a character outside the byte range keeps its low 8 bits. */
  function CharsToBytes(s: string): (r: seq<Byte>)
    ensures |r| == |s|
  {
    seq(|s|, i requires 0 <= i < |s| => (s[i] as int) % 0x100)
  }

  function BytesToChars(b: seq<Byte>): (r: string)
    ensures |r| == |b|
  {
    seq(|b|, i requires 0 <= i < |b| => b[i] as char)
  }

  function EncodeString(s: string): (r: seq<Byte>)
    ensures |r| == 2 + |s|
  {
    EncodeInt16(|s|) + CharsToBytes(s)
  }

  function DecodeInt16(s: seq<Byte>): (r: Option<(int, seq<Byte>)>)
    ensures r.Some? <==> |s| >= 2
    ensures r.Some? ==> IsInt16(r.value.0) && r.value.1 == s[2..]
  {
    if |s| < 2 then None
    else
      var u := Uint16Of(s[0], s[1]);
      Some((if u > INT16_MAX then u - 0x1_0000 else u, s[2..]))
  }

  function DecodeInt32(s: seq<Byte>): (r: Option<(int, seq<Byte>)>)
    ensures r.Some? <==> |s| >= 4
    ensures r.Some? ==> IsInt32(r.value.0) && r.value.1 == s[4..]
  {
    if |s| < 4 then None
    else
      var u := Uint16Of(s[0], s[1]) * 0x1_0000 + Uint16Of(s[2], s[3]);
      Some((if u > INT32_MAX then u - 0x1_0000_0000 else u, s[4..]))
  }

  /** A negative length or a length beyond the end of the input is malformed. */
  function DecodeString(s: seq<Byte>): (r: Option<(string, seq<Byte>)>)
    ensures r.Some? ==> |r.value.0| <= INT16_MAX && |s| == 2 + |r.value.0| + |r.value.1|
  {
    match DecodeInt16(s)
    case None => None
    case Some((n, rest)) =>
      if n < 0 || n > |rest| then None
      else Some((BytesToChars(rest[..n]), rest[n..]))
  }

  lemma Uint16RoundTrip(u: int)
    requires 0 <= u < 0x1_0000
    ensures Uint16Of(EncodeUint16(u)[0], EncodeUint16(u)[1]) == u
  {
  }

  /** Decoding an encoded 16-bit field yields the value reduced to 16 bits. */
  lemma Int16Wraps(x: int, rest: seq<Byte>)
    ensures DecodeInt16(EncodeInt16(x) + rest) == Some((Wrap16(x), rest))
  {
    var s := EncodeInt16(x) + rest;
    Uint16RoundTrip(x % 0x1_0000);
    assert Uint16Of(s[0], s[1]) == x % 0x1_0000;
    assert s[2..] == rest;
  }

  lemma Int16RoundTrip(x: int, rest: seq<Byte>)
    requires IsInt16(x)
    ensures DecodeInt16(EncodeInt16(x) + rest) == Some((x, rest))
  {
    Int16Wraps(x, rest);
  }

  lemma Uint32Split(u: int)
    requires 0 <= u < 0x1_0000_0000
    ensures 0 <= u / 0x1_0000 < 0x1_0000
    ensures (u / 0x1_0000) * 0x1_0000 + u % 0x1_0000 == u
  {
  }

  /** Decoding an encoded 32-bit field yields the value reduced to 32 bits. */
  lemma Int32Wraps(x: int, rest: seq<Byte>)
    ensures DecodeInt32(EncodeInt32(x) + rest) == Some((Wrap32(x), rest))
  {
    var u := x % 0x1_0000_0000;
    var hi, lo := u / 0x1_0000, u % 0x1_0000;
    Uint32Split(u);
    var s := EncodeInt32(x) + rest;
    assert s == EncodeUint16(hi) + EncodeUint16(lo) + rest;
    Uint16RoundTrip(hi);
    Uint16RoundTrip(lo);
    assert Uint16Of(s[0], s[1]) == hi;
    assert Uint16Of(s[2], s[3]) == lo;
    assert Uint16Of(s[0], s[1]) * 0x1_0000 + Uint16Of(s[2], s[3]) == u;
    assert s[4..] == rest;
    assert DecodeInt32(s) == Some((if u > INT32_MAX then u - 0x1_0000_0000 else u, rest));
  }

  lemma Int32RoundTrip(x: int, rest: seq<Byte>)
    requires IsInt32(x)
    ensures DecodeInt32(EncodeInt32(x) + rest) == Some((x, rest))
  {
    Int32Wraps(x, rest);
  }

  lemma StringRoundTrip(s: string, rest: seq<Byte>)
    requires IsWireString(s)
    ensures DecodeString(EncodeString(s) + rest) == Some((s, rest))
  {
    var bytes := CharsToBytes(s);
    assert EncodeString(s) + rest == EncodeInt16(|s|) + (bytes + rest);
    Int16RoundTrip(|s|, bytes + rest);
    assert (bytes + rest)[..|s|] == bytes;
    assert (bytes + rest)[|s|..] == rest;
    assert forall i :: 0 <= i < |s| ==> s[i] in s;
    assert BytesToChars(bytes) == s;
  }
}
