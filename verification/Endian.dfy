/**
 Integers in host memory and in network byte order, for hosts of either endianness.
 Appendix B of RFC 791 fixes the order on the wire: the most significant octet goes first.
 */
module Endian {

  type Byte = x: int | 0 <= x < 256

  datatype Host = LittleEndian | BigEndian

  function Pow256(w: nat): (p: nat)
    ensures 1 <= p
  {
    if w == 0 then 1 else 256 * Pow256(w - 1)
  }

  function Little(v: nat, w: nat): (bs: seq<Byte>)
    ensures |bs| == w
  {
    if w == 0 then [] else [v % 256] + Little(v / 256, w - 1)
  }

  function Big(v: nat, w: nat): (bs: seq<Byte>)
    ensures |bs| == w
  {
    if w == 0 then [] else Big(v / 256, w - 1) + [v % 256]
  }

  function LittleValue(bs: seq<Byte>): (v: nat)
    ensures v < Pow256(|bs|)
  {
    if bs == [] then 0 else bs[0] + 256 * LittleValue(bs[1..])
  }

  function Reverse(bs: seq<Byte>): (rs: seq<Byte>)
    ensures |rs| == |bs|
  {
    if bs == [] then [] else Reverse(bs[1..]) + [bs[0]]
  }

  lemma {:induction false} ReverseTwice(bs: seq<Byte>)
    ensures Reverse(Reverse(bs)) == bs
  {
    if bs != [] {
      ReverseTwice(bs[1..]);
      ReverseSnoc(Reverse(bs[1..]), bs[0]);
    }
  }

  lemma {:induction false} ReverseSnoc(bs: seq<Byte>, b: Byte)
    ensures Reverse(bs + [b]) == [b] + Reverse(bs)
  {
    if bs != [] {
      ReverseSnoc(bs[1..], b);
      assert (bs + [b])[1..] == bs[1..] + [b];
    }
  }

  /** Reading the octets of `v` backwards gives the other byte order. */
  lemma {:induction false} OrdersAreMirrored(v: nat, w: nat)
    ensures Reverse(Little(v, w)) == Big(v, w)
  {
    if w > 0 { OrdersAreMirrored(v / 256, w - 1); }
  }

  lemma {:induction false} LittleRoundTrip(v: nat, w: nat)
    requires v < Pow256(w)
    ensures LittleValue(Little(v, w)) == v
  {
    if w > 0 { LittleRoundTrip(v / 256, w - 1); }
  }

  lemma {:induction false} BytesRoundTrip(bs: seq<Byte>)
    ensures Little(LittleValue(bs), |bs|) == bs
  {
    hide Pow256;
    if bs != [] {
      BytesRoundTrip(bs[1..]);
      var v := LittleValue(bs);
      assert v % 256 == bs[0] && v / 256 == LittleValue(bs[1..]);
    }
  }

  // ---------- what the host does ----------

  /** The octets at rising addresses of a host integer `v` that is `w` octets wide. */
  function Memory(host: Host, v: nat, w: nat): (bs: seq<Byte>)
    ensures |bs| == w
  {
    match host
    case LittleEndian => Little(v, w)
    case BigEndian => Big(v, w)
  }

  function Load(host: Host, bs: seq<Byte>): (v: nat)
    ensures v < Pow256(|bs|)
  {
    match host
    case LittleEndian => LittleValue(bs)
    case BigEndian => LittleValue(Reverse(bs))
  }

  /** `htobe*`: the octets change places on a little-endian host, and stay on a big-endian one. */
  function HostToNetwork(host: Host, v: nat, w: nat): (n: nat)
    requires v < Pow256(w)
    ensures n < Pow256(w)
  {
    match host
    case LittleEndian => LittleValue(Reverse(Little(v, w)))
    case BigEndian => v
  }

  /** `be*toh`: the same exchange. */
  function NetworkToHost(host: Host, n: nat, w: nat): (v: nat)
    requires n < Pow256(w)
    ensures v < Pow256(w)
  {
    HostToNetwork(host, n, w)
  }

  /** Whatever the host, a converted integer lies in memory most significant octet first. */
  lemma NetworkOrder(host: Host, v: nat, w: nat)
    requires v < Pow256(w)
    ensures Memory(host, HostToNetwork(host, v, w), w) == Big(v, w)
  {
    if host.LittleEndian? {
      BytesRoundTrip(Reverse(Little(v, w)));
      OrdersAreMirrored(v, w);
    }
  }

  lemma BigValue(v: nat, w: nat)
    requires v < Pow256(w)
    ensures LittleValue(Reverse(Big(v, w))) == v
  {
    OrdersAreMirrored(v, w);
    ReverseTwice(Little(v, w));
    LittleRoundTrip(v, w);
  }

  /** The integer that octets spell when each counts 256 times the next. */
  function Spelled(bs: seq<Byte>): nat {
    if bs == [] then 0 else bs[0] * Pow256(|bs| - 1) + Spelled(bs[1..])
  }

  lemma {:induction false} SpelledSnoc(bs: seq<Byte>, b: Byte)
    ensures Spelled(bs + [b]) == 256 * Spelled(bs) + b
  {
    if bs == [] {
      assert [] + [b] == [b] && [b][1..] == [];
    } else {
      SpelledSnoc(bs[1..], b);
      assert (bs + [b])[1..] == bs[1..] + [b];
      assert bs[0] * Pow256(|bs|) == 256 * (bs[0] * Pow256(|bs| - 1));
    }
  }

  /** So the octets of network order spell the integer, the first one counting most. */
  lemma {:induction false} MostSignificantFirst(v: nat, w: nat)
    requires v < Pow256(w)
    ensures Spelled(Big(v, w)) == v
  {
    if w > 0 {
      MostSignificantFirst(v / 256, w - 1);
      SpelledSnoc(Big(v / 256, w - 1), v % 256);
    }
  }

  /** Loading octets that are in network order and converting them yields the integer they spell. */
  lemma HostOrder(host: Host, v: nat, w: nat)
    requires v < Pow256(w)
    ensures NetworkToHost(host, Load(host, Big(v, w)), w) == v
  {
    BigValue(v, w);
    if host.LittleEndian? {
      BytesRoundTrip(Big(v, w));
    }
  }

  // ---------- signed integers on the wire ----------

  predicate InWidth(x: int, w: nat) {
    w > 0 && 0 <= 2 * x + Pow256(w) < 2 * Pow256(w)
  }

  /** Two's complement. */
  function Unsigned(x: int, w: nat): (v: nat)
    requires InWidth(x, w)
    ensures v < Pow256(w)
  {
    if x < 0 then x + Pow256(w) else x
  }

  function Signed(v: nat, w: nat): (x: int)
    requires w > 0 && v < Pow256(w)
    ensures InWidth(x, w)
  {
    if 2 * v < Pow256(w) then v else v - Pow256(w)
  }

  /** What the stream carries for `x`. */
  ghost function Wire(x: int, w: nat): (bs: seq<Byte>)
    requires InWidth(x, w)
    ensures |bs| == w
  {
    Big(Unsigned(x, w), w)
  }

  /** The integer that `w` octets of the stream stand for. */
  ghost function Parse(bs: seq<Byte>): (x: int)
    requires |bs| > 0
    ensures InWidth(x, |bs|)
  {
    Signed(LittleValue(Reverse(bs)), |bs|)
  }

  lemma WireRoundTrip(x: int, w: nat)
    requires InWidth(x, w)
    ensures Parse(Wire(x, w)) == x
  {
    BigValue(Unsigned(x, w), w);
  }

  lemma ParseRoundTrip(bs: seq<Byte>)
    requires |bs| > 0
    ensures Wire(Parse(bs), |bs|) == bs
  {
    BytesRoundTrip(Reverse(bs));
    OrdersAreMirrored(LittleValue(Reverse(bs)), |bs|);
    ReverseTwice(bs);
  }
}
