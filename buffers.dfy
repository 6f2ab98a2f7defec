/**
 * The write buffer that a request is serialised into and the read buffer, with
 * an advancing cursor, that a response is parsed from.
 */
module Buffers {
  import opened Wrappers
  import opened Wire

  /** Accumulates encoded fields in protocol order. */
  class RequestBuffer {
    var bytes: seq<Byte>

    constructor ()
      ensures bytes == []
    {
      bytes := [];
    }

    method WriteInt16(x: int)
      modifies this
      ensures bytes == old(bytes) + EncodeInt16(x)
    {
      bytes := bytes + EncodeInt16(x);
    }

    method WriteInt32(x: int)
      modifies this
      ensures bytes == old(bytes) + EncodeInt32(x)
    {
      bytes := bytes + EncodeInt32(x);
    }

    method WriteString(s: string)
      modifies this
      ensures bytes == old(bytes) + EncodeString(s)
    {
      WriteInt16(|s|);
      bytes := bytes + CharsToBytes(s);
    }
  }

  /** Reads fields from `data` starting at `cursor`; a successful read moves the cursor past them. */
  class ResponseBuffer {
    const data: seq<Byte>
    var cursor: nat

    ghost predicate Valid()
      reads this
    {
      cursor <= |data|
    }

    /** The bytes not read yet. */
    function Remaining(): (r: seq<Byte>)
      reads this
      requires Valid()
      ensures |r| == |data| - cursor
    {
      data[cursor..]
    }

    constructor (bytes: seq<Byte>)
      ensures Valid() && data == bytes && cursor == 0 && Remaining() == bytes
    {
      data := bytes;
      cursor := 0;
    }

    method ReadInt16() returns (r: Option<int>)
      requires Valid()
      modifies this
      ensures Valid()
      ensures match DecodeInt16(old(Remaining()))
              case None => r == None && cursor == old(cursor)
              case Some((x, rest)) => r == Some(x) && Remaining() == rest
    {
      if cursor + 2 > |data| {
        return None;
      }
      var u := Uint16Of(data[cursor], data[cursor + 1]);
      r := Some(if u > INT16_MAX then u - 0x1_0000 else u);
      cursor := cursor + 2;
    }

    method ReadInt32() returns (r: Option<int>)
      requires Valid()
      modifies this
      ensures Valid()
      ensures match DecodeInt32(old(Remaining()))
              case None => r == None && cursor == old(cursor)
              case Some((x, rest)) => r == Some(x) && Remaining() == rest
    {
      if cursor + 4 > |data| {
        return None;
      }
      var u := Uint16Of(data[cursor], data[cursor + 1]) * 0x1_0000
             + Uint16Of(data[cursor + 2], data[cursor + 3]);
      r := Some(if u > INT32_MAX then u - 0x1_0000_0000 else u);
      cursor := cursor + 4;
    }

    method ReadString() returns (r: Option<string>)
      requires Valid()
      modifies this
      ensures Valid()
      ensures match DecodeString(old(Remaining()))
              case None => r == None && cursor == old(cursor)
              case Some((s, rest)) => r == Some(s) && Remaining() == rest
    {
      var start := cursor;
      var n := ReadInt16();
      if n == None || n.value < 0 || cursor + n.value > |data| {
        cursor := start;
        return None;
      }
      assert data[cursor..cursor + n.value] == Remaining()[..n.value];
      r := Some(BytesToChars(data[cursor..cursor + n.value]));
      ghost var rest := Remaining()[n.value..];
      cursor := cursor + n.value;
      assert Remaining() == rest;
    }
  }
}
