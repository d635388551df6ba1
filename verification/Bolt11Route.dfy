/** Route hints: one `r` field holds the hops of a private route, 51 bytes each. */
module Bolt11Route {
  import opened Common
  import opened Bits
  import opened JsInt
  import opened Regroup
  import opened Bolt11Fields

  const HOP_BYTES: nat := 51
  const TWO_16: nat := 0x1_0000
  const TWO_64: nat := 0x1_0000_0000_0000_0000

  datatype Hop = Hop(pubkey: seq<nat>, scid: int, feeBaseMsat: int, feeProportional: int, cltvDelta: int)

  /** A 33-byte compressed key; the numbers may be anything. */
  predicate HopOk(h: Hop) {
    |h.pubkey| == 33 && Fits(h.pubkey, BYTE)
  }

  predicate RouteOk(hops: seq<Hop>) {
    forall i :: 0 <= i < |hops| ==> HopOk(hops[i])
  }

  function Packed(key: seq<nat>, scid: seq<nat>, base: seq<nat>, prop: seq<nat>, delta: seq<nat>): seq<nat> {
    key + scid + base + prop + delta
  }

  function HopBytes(h: Hop): seq<nat> {
    Packed(h.pubkey, BigEndian(h.scid, 8), BigEndian(h.feeBaseMsat, 4), BigEndian(h.feeProportional, 4),
           BigEndian(h.cltvDelta, 2))
  }

  function RouteBytes(hops: seq<Hop>): seq<nat> {
    if hops == [] then [] else RouteBytes(hops[..|hops| - 1]) + HopBytes(hops[|hops| - 1])
  }

  lemma HopLength(h: Hop)
    requires HopOk(h)
    ensures |HopBytes(h)| == HOP_BYTES && Fits(HopBytes(h), BYTE)
  {
    PackedLength(h.pubkey, BigEndian(h.scid, 8), BigEndian(h.feeBaseMsat, 4), BigEndian(h.feeProportional, 4),
                 BigEndian(h.cltvDelta, 2));
  }

  lemma PackedLength(key: seq<nat>, scid: seq<nat>, base: seq<nat>, prop: seq<nat>, delta: seq<nat>)
    requires Fits(key, BYTE) && Fits(scid, BYTE) && Fits(base, BYTE) && Fits(prop, BYTE) && Fits(delta, BYTE)
    ensures Fits(Packed(key, scid, base, prop, delta), BYTE)
  {
  }

  lemma {:induction false} RouteLength(hops: seq<Hop>)
    requires RouteOk(hops)
    ensures |RouteBytes(hops)| == HOP_BYTES * |hops| && Fits(RouteBytes(hops), BYTE)
  {
    if hops != [] {
      RouteLength(hops[..|hops| - 1]);
      HopLength(hops[|hops| - 1]);
    }
  }

  // ---------- Shifted bytes of a 32-bit number ----------

  lemma TopByte(x: int, k: nat)
    requires k + 8 <= 32
    ensures BitsOf(And255(Sar(x, k)), BYTE) + BitsOf(x, k) == BitsOf(x, BYTE + k)
  {
    Masked255(Sar(x, k));
    ShiftedRight(x, BYTE, k);
  }

  lemma SameBytes(xs: seq<nat>, ys: seq<nat>)
    requires Fits(xs, BYTE) && Fits(ys, BYTE) && Spread(xs, BYTE) == Spread(ys, BYTE)
    ensures xs == ys
  {
    GroupSpread(xs, BYTE);
    GroupSpread(ys, BYTE);
  }

  lemma SpreadPrepend(x: nat, xs: seq<nat>, w: nat)
    ensures Spread([x] + xs, w) == BitsOf(x, w) + Spread(xs, w)
  {
    assert ([x] + xs)[1..] == xs;
  }

  /** One more shifted byte in front. */
  lemma ByteInFront(x: int, k: nat, rest: seq<nat>)
    requires k + 8 <= 32 && Fits(rest, BYTE) && Spread(rest, BYTE) == BitsOf(x, k)
    ensures var all := [And255(Sar(x, k))] + rest;
      Fits(all, BYTE) && Spread(all, BYTE) == BitsOf(x, BYTE + k)
  {
    TopByte(x, k);
    SpreadPrepend(And255(Sar(x, k)), rest, BYTE);
    WordSizes();
  }

  lemma LowByte(x: int)
    ensures Fits([And255(x)], BYTE) && Spread([And255(x)], BYTE) == BitsOf(x, BYTE)
  {
    Masked255(x);
    WordSizes();
    SpreadPrepend(And255(x), [], BYTE);
    assert [And255(x)] + [] == [And255(x)];
  }

  /** `(x >> 24) & 0xff, (x >> 16) & 0xff, (x >> 8) & 0xff, x & 0xff` */
  lemma FourBytes(x: int)
    ensures [And255(Sar(x, 24))] + ([And255(Sar(x, 16))] + ([And255(Sar(x, 8))] + [And255(x)])) == BigEndian(x, 4)
  {
    LowByte(x);
    ByteInFront(x, 8, [And255(x)]);
    ByteInFront(x, 16, [And255(Sar(x, 8))] + [And255(x)]);
    ByteInFront(x, 24, [And255(Sar(x, 16))] + ([And255(Sar(x, 8))] + [And255(x)]));
    BigEndianBits(x, 4);
    SameBytes([And255(Sar(x, 24))] + ([And255(Sar(x, 16))] + ([And255(Sar(x, 8))] + [And255(x)])), BigEndian(x, 4));
  }

  lemma TwoBytes(x: int)
    ensures [And255(Sar(x, 8))] + [And255(x)] == BigEndian(x, 2)
  {
    LowByte(x);
    ByteInFront(x, 8, [And255(x)]);
    BigEndianBits(x, 2);
    SameBytes([And255(Sar(x, 8))] + [And255(x)], BigEndian(x, 2));
  }

  method PushU32(bytes: seq<nat>, x: int) returns (r: seq<nat>)
    ensures r == bytes + BigEndian(x, 4)
  {
    r := bytes + [And255(Sar(x, 24))];
    r := r + [And255(Sar(x, 16))];
    r := r + [And255(Sar(x, 8))];
    r := r + [And255(x)];
    FourBytes(x);
  }

  method PushAll(bytes: seq<nat>, more: seq<nat>) returns (r: seq<nat>)
    ensures r == bytes + more
  {
    r := bytes;
    for i := 0 to |more|
      invariant r == bytes + more[..i]
    {
      r := r + [more[i]];
    }
  }

  lemma PushedInOrder(bytes: seq<nat>, key: seq<nat>, scid: seq<nat>, base: seq<nat>, prop: seq<nat>, delta: seq<nat>)
    ensures bytes + key + scid + base + prop + delta == bytes + Packed(key, scid, base, prop, delta)
  {
  }

  method PushU16(bytes: seq<nat>, x: int) returns (r: seq<nat>)
    ensures r == bytes + BigEndian(x, 2)
  {
    r := bytes + [And255(Sar(x, 8))];
    r := r + [And255(x)];
    TwoBytes(x);
  }

  /** The body of `encodeRouteHint`'s loop. */
  method PushHop(bytes: seq<nat>, hop: Hop) returns (r: seq<nat>)
    ensures r == bytes + HopBytes(hop)
  {
    r := PushAll(bytes, hop.pubkey);
    var scidBytes := BigintToBytes(hop.scid, 8);
    r := PushAll(r, scidBytes[..]);
    r := PushU32(r, hop.feeBaseMsat);
    r := PushU32(r, hop.feeProportional);
    r := PushU16(r, hop.cltvDelta);
    PushedInOrder(bytes, hop.pubkey, BigEndian(hop.scid, 8), BigEndian(hop.feeBaseMsat, 4),
                  BigEndian(hop.feeProportional, 4), BigEndian(hop.cltvDelta, 2));
  }

  /** `encodeRouteHint` */
  method EncodeRouteHint(hops: seq<Hop>) returns (words: seq<nat>)
    ensures words == ToWords(RouteBytes(hops))
  {
    var bytes := [];
    var i := 0;
    while i < |hops|
      invariant 0 <= i <= |hops|
      invariant bytes == RouteBytes(hops[..i])
    {
      bytes := PushHop(bytes, hops[i]);
      assert hops[..i + 1][..i] == hops[..i];
      i := i + 1;
    }
    assert hops[..i] == hops;
    words := ToWords(bytes);
  }

  // ---------- Reading them back: "Tagged Fields" of BOLT 11, field r ----------

  function ReadHop(b: seq<nat>): Hop
    requires |b| == HOP_BYTES
  {
    Hop(b[..33], FromBigEndian(b[33..41]), FromBigEndian(b[41..45]), FromBigEndian(b[45..49]), FromBigEndian(b[49..51]))
  }

  function ReadRoute(b: seq<nat>): seq<Hop> {
    if |b| < HOP_BYTES then [] else ReadRoute(b[..|b| - HOP_BYTES]) + [ReadHop(b[|b| - HOP_BYTES..])]
  }

  /** What the field widths leave of a hop. */
  function Carried(h: Hop): Hop {
    Hop(h.pubkey, h.scid % TWO_64, h.feeBaseMsat % TWO_32, h.feeProportional % TWO_32, h.cltvDelta % TWO_16)
  }

  function CarriedRoute(hops: seq<Hop>): seq<Hop> {
    if hops == [] then [] else CarriedRoute(hops[..|hops| - 1]) + [Carried(hops[|hops| - 1])]
  }

  lemma Unpacked(key: seq<nat>, scid: seq<nat>, base: seq<nat>, prop: seq<nat>, delta: seq<nat>)
    requires |key| == 33 && |scid| == 8 && |base| == 4 && |prop| == 4 && |delta| == 2
    ensures var b := Packed(key, scid, base, prop, delta);
      && |b| == HOP_BYTES && b[..33] == key && b[33..41] == scid && b[41..45] == base && b[45..49] == prop
      && b[49..51] == delta
  {
  }

  lemma HopRoundTrip(h: Hop)
    requires HopOk(h)
    ensures ReadHop(HopBytes(h)) == Carried(h)
  {
    Unpacked(h.pubkey, BigEndian(h.scid, 8), BigEndian(h.feeBaseMsat, 4), BigEndian(h.feeProportional, 4),
             BigEndian(h.cltvDelta, 2));
    ReadU64(h.scid);
    ReadU32(h.feeBaseMsat);
    ReadU32(h.feeProportional);
    ReadU16(h.cltvDelta);
  }

  /** n bytes carry v up to a multiple of 2^(8n). */
  lemma ReadPlus(v: int, n: nat, m: nat) returns (q: int)
    requires m == Pow2(n * BYTE)
    ensures 0 <= FromBigEndian(BigEndian(v, n)) < m && FromBigEndian(BigEndian(v, n)) + m * q == v
  {
    ReadBigEndian(v, n);
    q := KeptPlus(v, n * BYTE, m);
  }

  lemma Modulo64(r: int, q: int, v: int)
    requires 0 <= r < TWO_64 && r + TWO_64 * q == v
    ensures r == v % TWO_64
  {
  }

  lemma Modulo32(r: int, q: int, v: int)
    requires 0 <= r < TWO_32 && r + TWO_32 * q == v
    ensures r == v % TWO_32
  {
  }

  lemma Modulo16(r: int, q: int, v: int)
    requires 0 <= r < TWO_16 && r + TWO_16 * q == v
    ensures r == v % TWO_16
  {
  }

  lemma ReadU64(v: int)
    ensures FromBigEndian(BigEndian(v, 8)) == v % TWO_64
  {
    FieldSizes();
    var q := ReadPlus(v, 8, TWO_64);
    Modulo64(FromBigEndian(BigEndian(v, 8)), q, v);
  }

  lemma ReadU32(v: int)
    ensures FromBigEndian(BigEndian(v, 4)) == v % TWO_32
  {
    FieldSizes();
    var q := ReadPlus(v, 4, TWO_32);
    Modulo32(FromBigEndian(BigEndian(v, 4)), q, v);
  }

  lemma ReadU16(v: int)
    ensures FromBigEndian(BigEndian(v, 2)) == v % TWO_16
  {
    FieldSizes();
    var q := ReadPlus(v, 2, TWO_16);
    Modulo16(FromBigEndian(BigEndian(v, 2)), q, v);
  }

  lemma {:induction false} RouteRoundTrip(hops: seq<Hop>)
    requires RouteOk(hops)
    ensures ReadRoute(RouteBytes(hops)) == CarriedRoute(hops)
  {
    if hops != [] {
      var front, last := hops[..|hops| - 1], hops[|hops| - 1];
      var b := RouteBytes(hops);
      RouteRoundTrip(front);
      HopRoundTrip(last);
      assert |HopBytes(last)| == HOP_BYTES;
      assert b[..|b| - HOP_BYTES] == RouteBytes(front) && b[|b| - HOP_BYTES..] == HopBytes(last);
    }
  }

  predicate HopInRange(h: Hop) {
    && 0 <= h.scid < TWO_64
    && 0 <= h.feeBaseMsat < TWO_32 && 0 <= h.feeProportional < TWO_32
    && 0 <= h.cltvDelta < TWO_16
  }

  /** A u64 short channel id, u32 fees and a u16 delta are exactly what survives. */
  lemma CarriedIff(h: Hop)
    ensures Carried(h) == h <==> HopInRange(h)
  {
  }

  lemma FieldSizes()
    ensures Pow2(2 * BYTE) == TWO_16 && Pow2(4 * BYTE) == TWO_32 && Pow2(8 * BYTE) == TWO_64
  {
    Pow2Of32();
    PowSum(16, 16);
    PowSum(32, 32);
    PowSum(8, 8);
    WordSizes();
  }

  lemma {:induction false} PowSum(m: nat, n: nat)
    ensures Pow2(m + n) == Pow2(m) * Pow2(n)
    decreases n
  {
    if n > 0 {
      PowSum(m, n - 1);
      Twice(Pow2(n - 1), Pow2(m));
    }
  }
}
