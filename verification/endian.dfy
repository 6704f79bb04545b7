// Byte order conversion (net/endian.h) and the two's complement view of the
// fixed-width integers that net/buffer.h writes and reads.
module Endian {
  import opened Sequences

  type Byte = b: int | 0 <= b < 256

  // The conversions are the identity on a big-endian host and a byte swap on a
  // little-endian one.
  datatype Host = LittleEndian | BigEndian

  function Pow256(w: nat): (p: nat)
    ensures p > 0
    ensures w > 0 ==> p % 2 == 0
  {
    if w == 0 then 1 else 256 * Pow256(w - 1)
  }

  // The w octets of v, most significant first (RFC 791, Appendix B).
  function ToNetwork(v: nat, w: nat): (bs: seq<Byte>)
    requires v < Pow256(w)
    ensures |bs| == w
  {
    if w == 0 then [] else ToNetwork(v / 256, w - 1) + [v % 256]
  }

  function FromNetwork(bs: seq<Byte>): (v: nat)
    ensures v < Pow256(|bs|)
  {
    if bs == [] then 0 else 256 * FromNetwork(bs[..|bs| - 1]) + bs[|bs| - 1]
  }

  function Reverse(bs: seq<Byte>): (r: seq<Byte>)
    ensures |r| == |bs|
    ensures forall i :: 0 <= i < |bs| ==> r[i] == bs[|bs| - 1 - i]
  {
    seq(|bs|, i requires 0 <= i < |bs| => bs[|bs| - 1 - i])
  }

  lemma ReverseTwice(bs: seq<Byte>)
    ensures Reverse(Reverse(bs)) == bs
  {
    assert forall i :: 0 <= i < |bs| ==> Reverse(Reverse(bs))[i] == bs[i];
  }

  // The bytes that a w-byte unsigned v occupies in memory, and back.
  function Memory(h: Host, v: nat, w: nat): (bs: seq<Byte>)
    requires v < Pow256(w)
    ensures |bs| == w
  {
    if h.BigEndian? then ToNetwork(v, w) else Reverse(ToNetwork(v, w))
  }

  function Load(h: Host, bs: seq<Byte>): (v: nat)
    ensures v < Pow256(|bs|)
  {
    FromNetwork(if h.BigEndian? then bs else Reverse(bs))
  }

  // htobe16/32/64 and be16toh/32/64: the same swap in both directions.
  function HostToNetwork(h: Host, v: nat, w: nat): (r: nat)
    requires v < Pow256(w)
    ensures r < Pow256(w)
  {
    if h.BigEndian? then v else FromNetwork(Reverse(ToNetwork(v, w)))
  }

  function NetworkToHost(h: Host, v: nat, w: nat): (r: nat)
    requires v < Pow256(w)
    ensures r < Pow256(w)
  {
    HostToNetwork(h, v, w)
  }

  lemma {:induction false} FromToNetwork(v: nat, w: nat)
    requires v < Pow256(w)
    ensures FromNetwork(ToNetwork(v, w)) == v
  {
    if w > 0 {
      var bs := ToNetwork(v, w);
      assert bs[..w - 1] == ToNetwork(v / 256, w - 1);
      FromToNetwork(v / 256, w - 1);
    }
  }

  lemma {:induction false} ToFromNetwork(bs: seq<Byte>)
    ensures ToNetwork(FromNetwork(bs), |bs|) == bs
  {
    if bs != [] {
      var w := |bs|;
      var hi, lo := FromNetwork(bs[..w - 1]), bs[w - 1];
      assert (256 * hi + lo) / 256 == hi && (256 * hi + lo) % 256 == lo;
      ToFromNetwork(bs[..w - 1]);
      assert bs == bs[..w - 1] + [lo];
    }
  }

  // Octet i of the network image is digit w-1-i of v in base 256.
  lemma {:induction false} MostSignificantFirst(v: nat, w: nat, i: nat)
    requires v < Pow256(w) && i < w
    ensures ToNetwork(v, w)[i] == (v / Pow256(w - 1 - i)) % 256
  {
    if i < w - 1 {
      MostSignificantFirst(v / 256, w - 1, i);
      DivDiv(v, Pow256(w - 2 - i));
    }
  }

  lemma DivDiv(v: nat, p: nat)
    requires p > 0
    ensures (v / 256) / p == v / (256 * p)
  {
    var q := v / 256;
    var k, r, m := q / p, q % p, v % 256;
    assert v == 256 * (p * k + r) + m;
    assert 256 * (p * k) == (256 * p) * k;
    Quotient(v, 256 * p, k, 256 * r + m);
  }

  lemma Quotient(v: nat, d: nat, k: nat, r: nat)
    requires r < d && v == d * k + r
    ensures v / d == k
  {
    var k' := v / d;
    assert v == d * k' + v % d;
    Distribute(d, k, k');
    if k' < k {
      AtLeast(d, k - k');
    } else if k' > k {
      AtLeast(d, k' - k);
    }
  }

  lemma Distribute(d: int, a: int, b: int)
    ensures d * (a - b) == d * a - d * b && d * (b - a) == d * b - d * a
  {
  }

  lemma AtLeast(d: nat, n: nat)
    requires n > 0
    ensures d * n >= d
  {
  }

  // What append(&be, sizeof be) puts in the buffer does not depend on the host.
  lemma WireImage(h: Host, v: nat, w: nat)
    requires v < Pow256(w)
    ensures Memory(h, HostToNetwork(h, v, w), w) == ToNetwork(v, w)
  {
    if h.LittleEndian? {
      var swapped := Reverse(ToNetwork(v, w));
      ToFromNetwork(swapped);
      ReverseTwice(ToNetwork(v, w));
    }
  }

  // memcpy into a host integer followed by be..toh recovers the network value.
  lemma WireValue(h: Host, bs: seq<Byte>)
    ensures NetworkToHost(h, Load(h, bs), |bs|) == FromNetwork(bs)
  {
    if h.LittleEndian? {
      ToFromNetwork(Reverse(bs));
      ReverseTwice(bs);
    }
  }

  // ------------------------------------------------------- signed integers

  predicate Fits(x: int, w: nat)
    requires w > 0
  {
    -(Pow256(w) / 2) <= x < Pow256(w) / 2
  }

  function ToUnsigned(x: int, w: nat): (u: nat)
    requires w > 0 && Fits(x, w)
    ensures u < Pow256(w)
  {
    if x < 0 then x + Pow256(w) else x
  }

  function ToSigned(u: nat, w: nat): (x: int)
    requires w > 0 && u < Pow256(w)
    ensures Fits(x, w) && ToUnsigned(x, w) == u
  {
    if u < Pow256(w) / 2 then u else u - Pow256(w)
  }

  // The network image of a w-byte signed integer, and its reader.
  function Encode(x: int, w: nat): (bs: seq<Byte>)
    requires w > 0 && Fits(x, w)
    ensures |bs| == w
  {
    ToNetwork(ToUnsigned(x, w), w)
  }

  function Decode(bs: seq<Byte>): (x: int)
    requires bs != []
    ensures Fits(x, |bs|)
  {
    ToSigned(FromNetwork(bs), |bs|)
  }

  lemma DecodeEncode(x: int, w: nat)
    requires w > 0 && Fits(x, w)
    ensures Decode(Encode(x, w)) == x
  {
    FromToNetwork(ToUnsigned(x, w), w);
  }

  lemma EncodeDecode(bs: seq<Byte>)
    requires bs != []
    ensures Encode(Decode(bs), |bs|) == bs
  {
    ToFromNetwork(bs);
  }

  lemma {:induction false} ComplementImage(u: nat, w: nat, k: nat)
    requires u < Pow256(w) && k < w
    ensures ToNetwork(Pow256(w) - 1 - u, w)[k] == 255 - ToNetwork(u, w)[k]
  {
    var p, q, r := Pow256(w - 1), u / 256, u % 256;
    assert Pow256(w) - 1 - u == 256 * (p - 1 - q) + (255 - r);
    assert (Pow256(w) - 1 - u) / 256 == p - 1 - q && (Pow256(w) - 1 - u) % 256 == 255 - r;
    if k < w - 1 {
      ComplementImage(q, w - 1, k);
    }
  }

  // Two's complement: a number that is not negative is sent as it stands, and
  // -1 - x as the image of x with every bit turned over.
  lemma TwosComplement(x: int, w: nat, k: nat)
    requires w > 0 && Fits(x, w) && k < w
    ensures x >= 0 ==> x < Pow256(w) && Encode(x, w) == ToNetwork(x, w)
    ensures Fits(-1 - x, w) && Encode(-1 - x, w)[k] == 255 - Encode(x, w)[k]
  {
    ComplementImage(ToUnsigned(x, w), w, k);
  }

  lemma {:induction false} ZeroImage(w: nat, k: nat)
    requires k < w
    ensures ToNetwork(0, w)[k] == 0
  {
    if k < w - 1 {
      ZeroImage(w - 1, k);
    }
  }

  // -1 is all ones at every width.
  lemma MinusOneImage(w: nat, k: nat)
    requires k < w
    ensures Fits(-1, w) && Encode(-1, w)[k] == 255
  {
    TwosComplement(0, w, k);
    ZeroImage(w, k);
  }

  // ------------------------------------------- sequences of mixed widths

  datatype Int = Int(value: int, width: nat) {
    predicate Ok() { width in {1, 2, 4, 8} && Fits(value, width) }

    function Image(): (bs: seq<Byte>)
      requires Ok()
      ensures |bs| == width
    {
      Encode(value, width)
    }
  }

  predicate AllOk(xs: seq<Int>) {
    forall i :: 0 <= i < |xs| ==> xs[i].Ok()
  }

  function EncodeAll(xs: seq<Int>): (bs: seq<Byte>)
    requires AllOk(xs)
  {
    if xs == [] then [] else xs[0].Image() + EncodeAll(xs[1..])
  }

  function Widths(xs: seq<Int>): (ws: seq<nat>)
    requires AllOk(xs)
    ensures |ws| == |xs| && Positive(ws)
  {
    if xs == [] then [] else [xs[0].width] + Widths(xs[1..])
  }

  predicate Positive(ws: seq<nat>) {
    forall i :: 0 <= i < |ws| ==> ws[i] > 0
  }

  // Reads one integer of each of the given widths off the front.
  function DecodeAll(bs: seq<Byte>, widths: seq<nat>): (r: (seq<Int>, seq<Byte>))
    requires Positive(widths)
  {
    if widths == [] || |bs| < widths[0] then ([], bs)
    else
      var w := widths[0];
      var (xs, rest) := DecodeAll(bs[w..], widths[1..]);
      ([Int(Decode(bs[..w]), w)] + xs, rest)
  }

  lemma DecodeFront(x: Int, tail: seq<Byte>, widths: seq<nat>)
    requires x.Ok() && Positive(widths) && widths != [] && widths[0] == x.width
    ensures var r := DecodeAll(tail, widths[1..]);
      DecodeAll(x.Image() + tail, widths) == ([x] + r.0, r.1)
  {
    var bs := x.Image() + tail;
    assert bs[..x.width] == x.Image() && bs[x.width..] == tail;
    DecodeEncode(x.value, x.width);
    hide Encode, Decode;
  }

  // Integers written one after the other in any mix of widths read back
  // unchanged, and what follows them is left alone.
  lemma {:induction false} DecodeAllEncodeAll(xs: seq<Int>, rest: seq<Byte>)
    requires AllOk(xs)
    ensures DecodeAll(EncodeAll(xs) + rest, Widths(xs)) == (xs, rest)
  {
    if xs == [] {
      assert EncodeAll(xs) + rest == rest;
    } else {
      hide DecodeAll;
      var tail := EncodeAll(xs[1..]);
      DecodeAllEncodeAll(xs[1..], rest);
      DecodeFront(xs[0], tail + rest, Widths(xs));
      assert Widths(xs)[1..] == Widths(xs[1..]);
      Append(xs[0].Image(), tail, rest);
      assert xs == [xs[0]] + xs[1..];
    }
  }

  lemma {:induction false} EncodeAllConcat(xs: seq<Int>, ys: seq<Int>)
    requires AllOk(xs) && AllOk(ys)
    ensures AllOk(xs + ys) && EncodeAll(xs + ys) == EncodeAll(xs) + EncodeAll(ys)
  {
    if xs == [] {
      assert xs + ys == ys;
    } else {
      assert (xs + ys)[1..] == xs[1..] + ys;
      EncodeAllConcat(xs[1..], ys);
    }
  }
}
