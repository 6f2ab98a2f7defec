/**
 * Arrays of the broker's binary framing: a 32-bit element count followed by the
 * elements, each in the layout of its own encoder. A negative count is malformed.
 */
module WireArrays {
  import opened Wrappers
  import opened Wire

  /** The elements one after another, without a count. */
  function EncodeElements<T>(enc: T -> seq<Byte>, xs: seq<T>): seq<Byte>
  {
    if xs == [] then [] else enc(xs[0]) + EncodeElements(enc, xs[1..])
  }

  function EncodeArray<T>(enc: T -> seq<Byte>, xs: seq<T>): seq<Byte>
  {
    EncodeInt32(|xs|) + EncodeElements(enc, xs)
  }

  /** Decodes exactly `n` elements one after another. */
  function DecodeElements<T>(dec: seq<Byte> -> Option<(T, seq<Byte>)>, s: seq<Byte>, n: nat)
    : (r: Option<(seq<T>, seq<Byte>)>)
    ensures r.Some? ==> |r.value.0| == n
    decreases n
  {
    if n == 0 then Some(([], s))
    else match dec(s)
      case None => None
      case Some((x, rest)) =>
        match DecodeElements(dec, rest, n - 1)
        case None => None
        case Some((xs, rest')) => Some(([x] + xs, rest'))
  }

  function DecodeArray<T>(dec: seq<Byte> -> Option<(T, seq<Byte>)>, s: seq<Byte>): Option<(seq<T>, seq<Byte>)>
  {
    match DecodeInt32(s)
    case None => None
    case Some((n, rest)) => if n < 0 then None else DecodeElements(dec, rest, n)
  }

  /** `dec` reads back what `enc` wrote for `x`, whatever follows it. */
  ghost predicate RoundTrips<T>(dec: seq<Byte> -> Option<(T, seq<Byte>)>, enc: T -> seq<Byte>, x: T)
  {
    forall rest :: dec(enc(x) + rest) == Some((x, rest))
  }

  lemma {:induction false} EncodeElementsSnoc<T>(enc: T -> seq<Byte>, xs: seq<T>, x: T)
    ensures EncodeElements(enc, xs + [x]) == EncodeElements(enc, xs) + enc(x)
  {
    if xs == [] {
      assert xs + [x] == [x];
      assert [x][1..] == [];
    } else {
      assert (xs + [x])[0] == xs[0];
      assert (xs + [x])[1..] == xs[1..] + [x];
      EncodeElementsSnoc(enc, xs[1..], x);
    }
  }

  /** Writing one more element after the encoded ones leaves the encoding of the longer list. */
  lemma AppendElement<T>(enc: T -> seq<Byte>, start: seq<Byte>, xs: seq<T>, x: T)
    ensures (start + EncodeElements(enc, xs)) + enc(x) == start + EncodeElements(enc, xs + [x])
  {
    EncodeElementsSnoc(enc, xs, x);
  }

  /** Decoding one more element after `k` decoded ones extends the decoded prefix. */
  lemma {:induction false} DecodeElementsSnoc<T>(dec: seq<Byte> -> Option<(T, seq<Byte>)>, s: seq<Byte>, k: nat,
                                                 xs: seq<T>, mid: seq<Byte>, x: T, rest: seq<Byte>)
    requires DecodeElements(dec, s, k) == Some((xs, mid))
    requires dec(mid) == Some((x, rest))
    ensures DecodeElements(dec, s, k + 1) == Some((xs + [x], rest))
    decreases k
  {
    if k == 0 {
      assert DecodeElements(dec, rest, 0) == Some(([], rest));
      assert xs + [x] == [x] + [];
    } else {
      match dec(s) {
        case Some((y, s')) =>
          match DecodeElements(dec, s', k - 1) {
            case Some((ys, mid')) =>
              DecodeElementsSnoc(dec, s', k - 1, ys, mid, x, rest);
              assert [y] + (ys + [x]) == xs + [x];
          }
      }
    }
  }

  /** An element that fails to decode after `k` decoded ones makes any longer array fail. */
  lemma {:induction false} DecodeElementsFails<T>(dec: seq<Byte> -> Option<(T, seq<Byte>)>, s: seq<Byte>, k: nat,
                                                  n: nat, xs: seq<T>, mid: seq<Byte>)
    requires k < n
    requires DecodeElements(dec, s, k) == Some((xs, mid))
    requires dec(mid) == None
    ensures DecodeElements(dec, s, n) == None
    decreases k
  {
    if k > 0 {
      match dec(s) {
        case Some((y, s')) =>
          match DecodeElements(dec, s', k - 1) {
            case Some((ys, mid')) =>
              DecodeElementsFails(dec, s', k - 1, n - 1, ys, mid);
          }
      }
    }
  }

  lemma {:induction false} ElementsRoundTrip<T>(dec: seq<Byte> -> Option<(T, seq<Byte>)>, enc: T -> seq<Byte>,
                                                xs: seq<T>, rest: seq<Byte>)
    requires forall i :: 0 <= i < |xs| ==> RoundTrips(dec, enc, xs[i])
    ensures DecodeElements(dec, EncodeElements(enc, xs) + rest, |xs|) == Some((xs, rest))
  {
    if xs == [] {
      assert EncodeElements(enc, xs) + rest == rest;
    } else {
      var tail := EncodeElements(enc, xs[1..]) + rest;
      assert EncodeElements(enc, xs) + rest == enc(xs[0]) + tail;
      assert RoundTrips(dec, enc, xs[0]);
      assert dec(enc(xs[0]) + tail) == Some((xs[0], tail));
      assert forall i :: 0 <= i < |xs[1..]| ==> xs[1..][i] == xs[i + 1];
      ElementsRoundTrip(dec, enc, xs[1..], rest);
      assert [xs[0]] + xs[1..] == xs;
    }
  }

  lemma ArrayRoundTrip<T>(dec: seq<Byte> -> Option<(T, seq<Byte>)>, enc: T -> seq<Byte>,
                          xs: seq<T>, rest: seq<Byte>)
    requires |xs| <= INT32_MAX
    requires forall i :: 0 <= i < |xs| ==> RoundTrips(dec, enc, xs[i])
    ensures DecodeArray(dec, EncodeArray(enc, xs) + rest) == Some((xs, rest))
  {
    assert EncodeArray(enc, xs) + rest == EncodeInt32(|xs|) + (EncodeElements(enc, xs) + rest);
    Int32RoundTrip(|xs|, EncodeElements(enc, xs) + rest);
    ElementsRoundTrip(dec, enc, xs, rest);
  }
}
