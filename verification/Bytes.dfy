/** Octets and the big-endian two's-complement integers that the network code puts on the wire. */
module Bytes {

  datatype Option<+T> = None | Some(value: T)

  type byte = x: int | 0 <= x < 256

  /** 256 to the power n: the number of values an n-byte integer can take. */
  function Pow256(n: nat): (p: int)
    ensures p >= 1
  {
    if n == 0 then 1 else 256 * Pow256(n - 1)
  }

  /** The n-byte big-endian image of the unsigned number u. */
  function BigEndian(u: int, n: nat): (bs: seq<byte>)
    requires 0 <= u < Pow256(n)
    ensures |bs| == n
  {
    if n == 0 then [] else BigEndian(u / 256, n - 1) + [u % 256]
  }

  /** The unsigned number a big-endian byte string stands for. */
  function FromBigEndian(bs: seq<byte>): (u: int)
    ensures 0 <= u < Pow256(|bs|)
  {
    if bs == [] then 0 else 256 * FromBigEndian(bs[..|bs| - 1]) + bs[|bs| - 1]
  }

  lemma {:induction false} BigEndianRoundTrip(u: int, n: nat)
    requires 0 <= u < Pow256(n)
    ensures FromBigEndian(BigEndian(u, n)) == u
  {
    if n > 0 {
      BigEndianRoundTrip(u / 256, n - 1);
      assert BigEndian(u, n)[..n - 1] == BigEndian(u / 256, n - 1);
    }
  }

  lemma {:induction false} FromBigEndianRoundTrip(bs: seq<byte>)
    ensures BigEndian(FromBigEndian(bs), |bs|) == bs
  {
    if bs != [] {
      FromBigEndianRoundTrip(bs[..|bs| - 1]);
    }
  }

  /** Signed values of n bytes (n >= 1): -256^n/2 .. 256^n/2 - 1. */
  predicate FitsSigned(x: int, n: nat) {
    n >= 1 && -Pow256(n) <= 2 * x < Pow256(n)
  }

  /** hostToNetwork followed by a copy: the octets of a signed n-byte integer. */
  function EncodeInt(x: int, n: nat): (bs: seq<byte>)
    requires FitsSigned(x, n)
    ensures |bs| == n
  {
    BigEndian(if x < 0 then x + Pow256(n) else x, n)
  }

  /** A copy followed by networkToHost: the signed integer held by the octets. */
  function DecodeInt(bs: seq<byte>): (x: int)
    requires bs != []
    ensures FitsSigned(x, |bs|)
  {
    var u := FromBigEndian(bs);
    if 2 * u < Pow256(|bs|) then u else u - Pow256(|bs|)
  }

  lemma IntRoundTrip(x: int, n: nat)
    requires FitsSigned(x, n)
    ensures DecodeInt(EncodeInt(x, n)) == x
  {
    BigEndianRoundTrip(if x < 0 then x + Pow256(n) else x, n);
  }

  lemma OctetsRoundTrip(bs: seq<byte>)
    requires bs != []
    ensures EncodeInt(DecodeInt(bs), |bs|) == bs
  {
    FromBigEndianRoundTrip(bs);
  }

  // ----- any mix of integers, one after the other -----

  datatype Integer = Integer(value: int, width: nat)

  ghost predicate AllFit(xs: seq<Integer>) { forall i :: 0 <= i < |xs| ==> FitsSigned(xs[i].value, xs[i].width) }

  function EncodeAll(xs: seq<Integer>): seq<byte>
    requires AllFit(xs)
  {
    if xs == [] then [] else EncodeInt(xs[0].value, xs[0].width) + EncodeAll(xs[1..])
  }

  /** Reading integers of the given widths off the front; None if the bytes run out. */
  function DecodeAll(bs: seq<byte>, widths: seq<nat>): Option<(seq<Integer>, seq<byte>)>
    decreases |widths|
  {
    if widths == [] then Some(([], bs))
    else if widths[0] == 0 || |bs| < widths[0] then None
    else
      var x := Integer(DecodeInt(bs[..widths[0]]), widths[0]);
      match DecodeAll(bs[widths[0]..], widths[1..])
      case None => None
      case Some(p) => Some(([x] + p.0, p.1))
  }

  function Widths(xs: seq<Integer>): seq<nat> { seq(|xs|, i requires 0 <= i < |xs| => xs[i].width) }

  lemma DecodeFirst(e: seq<byte>, bs: seq<byte>, widths: seq<nat>, xs: seq<Integer>, rest: seq<byte>)
    requires e != [] && DecodeAll(bs, widths) == Some((xs, rest))
    ensures DecodeAll(e + bs, [|e|] + widths) == Some(([Integer(DecodeInt(e), |e|)] + xs, rest))
  {
    assert (e + bs)[..|e|] == e && (e + bs)[|e|..] == bs;
    assert ([|e|] + widths)[1..] == widths;
  }

  /** Whatever integers were appended, and whatever follows them, reading with the same widths
      gives them back in order and leaves what follows. */
  lemma {:induction false} IntegersReadBack(xs: seq<Integer>, rest: seq<byte>)
    requires AllFit(xs)
    ensures DecodeAll(EncodeAll(xs) + rest, Widths(xs)) == Some((xs, rest))
    decreases |xs|
  {
    if xs == [] {
      assert EncodeAll(xs) + rest == rest;
    } else {
      var e, others := EncodeInt(xs[0].value, xs[0].width), EncodeAll(xs[1..]) + rest;
      IntRoundTrip(xs[0].value, xs[0].width);
      IntegersReadBack(xs[1..], rest);
      assert EncodeAll(xs) + rest == e + others;
      ReadBackStep(xs, e, others, EncodeAll(xs) + rest, rest);
    }
  }

  lemma ReadBackStep(xs: seq<Integer>, e: seq<byte>, others: seq<byte>, bs: seq<byte>, rest: seq<byte>)
    requires xs != [] && e != [] && xs[0] == Integer(DecodeInt(e), |e|) && bs == e + others
    requires DecodeAll(others, Widths(xs[1..])) == Some((xs[1..], rest))
    ensures DecodeAll(bs, Widths(xs)) == Some((xs, rest))
  {
    DecodeFirst(e, others, Widths(xs[1..]), xs[1..], rest);
    assert Widths(xs) == [|e|] + Widths(xs[1..]) && xs == [xs[0]] + xs[1..];
  }
}
