/** Bit strings, most significant bit first, and regrouping them into symbols of a fixed width. */
module Bits {
  import opened Common

  type BitString = seq<bool>

  /** The low n bits of x; a negative x is read in two's complement. */
  function BitsOf(x: int, n: nat): (r: BitString)
    ensures |r| == n
    decreases n
  {
    if n == 0 then [] else BitsOf(x / 2, n - 1) + [x % 2 == 1]
  }

  function ValueOf(bs: BitString): nat {
    if bs == [] then 0 else 2 * ValueOf(bs[..|bs| - 1]) + if bs[|bs| - 1] then 1 else 0
  }

  /** x without its low n bits. */
  function Shifted(x: int, n: nat): int
    decreases n
  {
    if n == 0 then x else Shifted(x / 2, n - 1)
  }

  function Zeros(n: nat): (r: BitString)
    ensures |r| == n
  {
    if n == 0 then [] else Zeros(n - 1) + [false]
  }

  lemma {:induction false} ValueBound(bs: BitString)
    ensures ValueOf(bs) < Pow2(|bs|)
  {
    if bs != [] { ValueBound(bs[..|bs| - 1]); }
  }

  lemma {:induction false} BitsOfValue(bs: BitString)
    ensures BitsOf(ValueOf(bs), |bs|) == bs
  {
    if bs != [] { BitsOfValue(bs[..|bs| - 1]); }
  }

  lemma Twice(p: int, q: int)
    ensures (2 * p) * q == 2 * (p * q) == q * (2 * p)
  {
  }

  /** Halving an even number plus y. */
  lemma Halves(t: int, y: int)
    ensures (2 * t + y) / 2 == t + y / 2 && (2 * t + y) % 2 == y % 2
  {
  }

  /** Reading n bits of x back loses exactly what lies above them. */
  lemma {:induction false} ValueOfBits(x: int, n: nat)
    ensures ValueOf(BitsOf(x, n)) + Pow2(n) * Shifted(x, n) == x
    decreases n
  {
    if n > 0 {
      ValueOfBits(x / 2, n - 1);
      var v, p, q := ValueOf(BitsOf(x / 2, n - 1)), Pow2(n - 1), Shifted(x / 2, n - 1);
      var bs := BitsOf(x, n);
      assert bs[..n - 1] == BitsOf(x / 2, n - 1);
      Twice(p, q);
    }
  }

  lemma ValueOfSmall(x: nat, n: nat)
    requires x < Pow2(n)
    ensures ValueOf(BitsOf(x, n)) == x
  {
    ShiftedSmall(x, n);
    ValueOfBits(x, n);
  }

  lemma {:induction false} ShiftedSmall(x: nat, n: nat)
    requires x < Pow2(n)
    ensures Shifted(x, n) == 0
  {
    if n > 0 { ShiftedSmall(x / 2, n - 1); }
  }

  lemma {:induction false} BitsSplit(x: int, m: nat, k: nat)
    ensures BitsOf(x, m + k) == BitsOf(Shifted(x, k), m) + BitsOf(x, k)
    decreases k
  {
    if k > 0 {
      BitsSplit(x / 2, m, k - 1);
      assert BitsOf(Shifted(x, k), m) + BitsOf(x, k)
          == BitsOf(Shifted(x / 2, k - 1), m) + BitsOf(x / 2, k - 1) + [x % 2 == 1];
    }
  }

  /** Appending k bits: x * 2^k + y. */
  lemma {:induction false} BitsJoin(x: int, y: nat, m: nat, k: nat)
    requires y < Pow2(k)
    ensures BitsOf(x * Pow2(k) + y, m + k) == BitsOf(x, m) + BitsOf(y, k)
  {
    if k > 0 {
      Twice(Pow2(k - 1), x);
      Halves(x * Pow2(k - 1), y);
      BitsJoin(x, y / 2, m, k - 1);
      assert BitsOf(x, m) + BitsOf(y, k) == BitsOf(x, m) + BitsOf(y / 2, k - 1) + [y % 2 == 1];
    }
  }

  /** A multiple of 2^k on top does not reach the low n <= k bits. */
  lemma {:induction false} BitsModulo(x: int, q: int, n: nat, k: nat)
    requires n <= k
    ensures BitsOf(x + q * Pow2(k), n) == BitsOf(x, n)
    decreases n
  {
    if n > 0 {
      Twice(Pow2(k - 1), q);
      Halves(q * Pow2(k - 1), x);
      BitsModulo(x / 2, q, n - 1, k - 1);
    }
  }

  lemma ValueSnoc(a: BitString, bit: bool)
    ensures ValueOf(a + [bit]) == 2 * ValueOf(a) + if bit then 1 else 0
  {
    assert (a + [bit])[..|a + [bit]| - 1] == a;
  }

  lemma {:induction false} ValueJoin(a: BitString, b: BitString)
    ensures ValueOf(a + b) == ValueOf(a) * Pow2(|b|) + ValueOf(b)
  {
    if b == [] {
      assert a + b == a;
    } else {
      var front, last := b[..|b| - 1], b[|b| - 1];
      ValueJoin(a, front);
      assert a + b == (a + front) + [last];
      ValueSnoc(a + front, last);
      ValueJoinStep(ValueOf(a), Pow2(|front|), ValueOf(front), if last then 1 else 0);
    }
  }

  lemma ValueJoinStep(a: nat, p: nat, f: nat, bit: nat)
    ensures 2 * (a * p + f) + bit == a * (2 * p) + (2 * f + bit)
  {
  }

  lemma ValuePush(a: BitString, x: nat, w: nat)
    requires x < Pow2(w)
    ensures ValueOf(a + BitsOf(x, w)) == ValueOf(a) * Pow2(w) + x
  {
    ValueJoin(a, BitsOf(x, w));
    ValueOfSmall(x, w);
  }

  lemma {:induction false} BitsOfZero(n: nat)
    ensures BitsOf(0, n) == Zeros(n) && ValueOf(Zeros(n)) == 0
  {
    if n > 0 { BitsOfZero(n - 1); }
  }

  // ---------- Symbols of `w` bits ----------

  predicate Fits(xs: seq<nat>, w: nat) {
    forall i :: 0 <= i < |xs| ==> xs[i] < Pow2(w)
  }

  /** The bits of the symbols, one after the other. */
  function Spread(xs: seq<nat>, w: nat): BitString {
    if xs == [] then [] else BitsOf(xs[0], w) + Spread(xs[1..], w)
  }

  lemma {:induction false} SpreadLength(xs: seq<nat>, w: nat)
    ensures |Spread(xs, w)| == |xs| * w
  {
    if xs != [] {
      SpreadLength(xs[1..], w);
      assert |xs| * w == |xs[1..]| * w + w;
    }
  }

  /** Zero bits needed to fill the last symbol. */
  function Padding(n: nat, w: nat): nat
    requires w > 0
  {
    if n == 0 then 0 else if n < w then w - n else Padding(n - w, w)
  }

  /** Cuts bits into symbols, the last one filled up with zeros. */
  function Group(bs: BitString, w: nat): (r: seq<nat>)
    requires w > 0
    decreases |bs|
  {
    if bs == [] then []
    else if |bs| < w then [ValueOf(bs + Zeros(w - |bs|))]
    else [ValueOf(bs[..w])] + Group(bs[w..], w)
  }

  lemma {:induction false} SpreadJoin(xs: seq<nat>, ys: seq<nat>, w: nat)
    ensures Spread(xs + ys, w) == Spread(xs, w) + Spread(ys, w)
  {
    if xs == [] {
      assert xs + ys == ys;
    } else {
      assert (xs + ys)[1..] == xs[1..] + ys;
      SpreadJoin(xs[1..], ys, w);
    }
  }

  /** A symbol made of w bits gives those bits back. */
  lemma SymbolOf(bs: BitString, w: nat, rest: seq<nat>)
    requires |bs| == w
    ensures Spread([ValueOf(bs)] + rest, w) == bs + Spread(rest, w)
    ensures ValueOf(bs) < Pow2(w)
  {
    BitsOfValue(bs);
    ValueBound(bs);
    var xs := [ValueOf(bs)] + rest;
    assert xs[1..] == rest;
  }

  lemma {:induction false} PaddingBound(n: nat, w: nat)
    requires w > 0
    ensures Padding(n, w) < w
  {
    if n >= w { PaddingBound(n - w, w); }
  }

  /** Grouping keeps every bit and adds fewer than w zeros. */
  lemma {:induction false} SpreadGroup(bs: BitString, w: nat)
    requires w > 0
    ensures Spread(Group(bs, w), w) == bs + Zeros(Padding(|bs|, w))
    decreases |bs|
  {
    if bs == [] {
      assert Zeros(0) == [];
    } else if |bs| < w {
      SymbolOf(bs + Zeros(w - |bs|), w, []);
      assert Group(bs, w) == [ValueOf(bs + Zeros(w - |bs|))] + [];
    } else {
      var head, tail := bs[..w], bs[w..];
      SpreadGroup(tail, w);
      SymbolOf(head, w, Group(tail, w));
      assert bs + Zeros(Padding(|tail|, w)) == head + (tail + Zeros(Padding(|tail|, w)));
    }
  }

  lemma {:induction false} GroupFits(bs: BitString, w: nat)
    requires w > 0
    ensures Fits(Group(bs, w), w)
    decreases |bs|
  {
    if bs != [] {
      if |bs| < w {
        ValueBound(bs + Zeros(w - |bs|));
      } else {
        ValueBound(bs[..w]);
        GroupFits(bs[w..], w);
      }
    }
  }

  lemma {:induction false} GroupSpread(xs: seq<nat>, w: nat)
    requires w > 0 && Fits(xs, w)
    ensures Group(Spread(xs, w), w) == xs
  {
    if xs != [] {
      var bs := Spread(xs, w);
      assert bs[..w] == BitsOf(xs[0], w) && bs[w..] == Spread(xs[1..], w);
      ValueOfSmall(xs[0], w);
      GroupSpread(xs[1..], w);
    }
  }

  lemma {:induction false} PaddingWhole(n: nat, w: nat)
    requires w > 0
    ensures Padding(n * w, w) == 0
  {
    if n > 0 {
      assert n * w == (n - 1) * w + w;
      assert (n - 1) * w >= 0;
      PaddingWhole(n - 1, w);
    }
  }

  lemma GroupStep(symbol: BitString, rest: BitString, w: nat)
    requires w > 0 && |symbol| == w
    ensures Group(symbol + rest, w) == [ValueOf(symbol)] + Group(rest, w)
  {
    var all := symbol + rest;
    assert all[..w] == symbol && all[w..] == rest;
  }

  /** Grouping past a whole number of symbols starts afresh. */
  lemma {:induction false} GroupJoin(xs: seq<nat>, bs: BitString, w: nat)
    requires w > 0 && Fits(xs, w)
    ensures Group(Spread(xs, w) + bs, w) == xs + Group(bs, w)
  {
    if xs == [] {
      assert Spread(xs, w) + bs == bs;
    } else {
      Associates(BitsOf(xs[0], w), Spread(xs[1..], w), bs);
      GroupStep(BitsOf(xs[0], w), Spread(xs[1..], w) + bs, w);
      ValueOfSmall(xs[0], w);
      GroupJoin(xs[1..], bs, w);
      Associates([xs[0]], xs[1..], Group(bs, w));
      assert [xs[0]] + xs[1..] == xs;
    }
  }

  lemma SpreadSnoc(xs: seq<nat>, x: nat, w: nat)
    ensures Spread(xs + [x], w) == Spread(xs, w) + BitsOf(x, w)
  {
    SpreadJoin(xs, [x], w);
    assert [x][1..] == [];
  }

  /** A converter has written `out` and holds `held`; reading a symbol adds its bits to those held. */
  lemma ReadSymbol(out: seq<nat>, v: nat, held: BitString, input: seq<nat>, w: nat, x: nat)
    requires Spread(out, v) + held == Spread(input, w)
    ensures Spread(out, v) + (held + BitsOf(x, w)) == Spread(input + [x], w)
  {
    SpreadSnoc(input, x, w);
  }

  /** Writing a symbol moves its bits from those held to those written. */
  lemma WriteSymbol(out: seq<nat>, v: nat, b: nat, held: BitString, all: BitString)
    requires Spread(out, v) + (BitsOf(b, v) + held) == all
    requires Fits(out, v) && b < Pow2(v)
    ensures Spread(out + [b], v) + held == all && Fits(out + [b], v)
  {
    SpreadSnoc(out, b, v);
  }

  /** Shifting left by k appends k zeros. */
  lemma ShiftIn(x: int, m: nat, k: nat)
    ensures BitsOf(x * Pow2(k), m + k) == BitsOf(x, m) + Zeros(k)
  {
    BitsJoin(x, 0, m, k);
    BitsOfZero(k);
  }

  /** The greatest multiple of v that is at most n. */
  function WholeLength(n: nat, v: nat): (r: nat)
    requires v > 0
    ensures r <= n
  {
    if n < v then 0 else v + WholeLength(n - v, v)
  }

  lemma {:induction false} WholeOfSum(q: nat, v: nat, p: nat)
    requires p < v
    ensures WholeLength(q * v + p, v) == q * v
  {
    if q > 0 {
      assert q * v == (q - 1) * v + v && (q - 1) * v >= 0;
      WholeOfSum(q - 1, v, p);
    }
  }

  /** The bits of the whole symbols of width v: fewer than v trailing bits are dropped. */
  function Whole(bs: BitString, v: nat): BitString
    requires v > 0
  {
    bs[..WholeLength(|bs|, v)]
  }

  /** Regrouping keeps every bit and appends fewer than w zeros. */
  lemma Regrouped(xs: seq<nat>, v: nat, w: nat)
    requires w > 0
    ensures var p := Padding(v * |xs|, w);
      && Spread(Group(Spread(xs, v), w), w) == Spread(xs, v) + Zeros(p) && p < w
      && w * |Group(Spread(xs, v), w)| == v * |xs| + p
      && Fits(Group(Spread(xs, v), w), w)
  {
    var ys := Group(Spread(xs, v), w);
    SpreadGroup(Spread(xs, v), w);
    SpreadLength(xs, v);
    SpreadLength(ys, w);
    PaddingBound(|Spread(xs, v)|, w);
    GroupFits(Spread(xs, v), w);
    assert v * |xs| == |xs| * v && w * |ys| == |ys| * w;
  }

  /** From wide symbols to narrow ones and back, dropping what does not fill a wide one. */
  lemma RegroupBack(xs: seq<nat>, v: nat, w: nat)
    requires 0 < w <= v && Fits(xs, v)
    ensures Group(Whole(Spread(Group(Spread(xs, v), w), w), v), v) == xs
  {
    var all := Spread(Group(Spread(xs, v), w), w);
    var p := Padding(v * |xs|, w);
    Regrouped(xs, v, w);
    SpreadLength(xs, v);
    WholeOfSum(|xs|, v, p);
    assert Whole(all, v) == Spread(xs, v);
    GroupSpread(xs, v);
  }

  /** The same without dropping: a zero symbol remains if there was padding. */
  lemma RegroupPadded(xs: seq<nat>, v: nat, w: nat)
    requires 0 < w <= v && Fits(xs, v)
    ensures Group(Spread(Group(Spread(xs, v), w), w), v) == xs + if Padding(v * |xs|, w) == 0 then [] else [0]
  {
    var p := Padding(v * |xs|, w);
    Regrouped(xs, v, w);
    GroupJoin(xs, Zeros(p), v);
    if p > 0 { ZeroSymbol(p, v); }
  }

  lemma ZeroSymbol(p: nat, v: nat)
    requires 0 < p < v
    ensures Group(Zeros(p), v) == [0]
  {
    ZerosJoin(p, v - p);
    BitsOfZero(v);
  }

  lemma {:induction false} ZerosJoin(m: nat, n: nat)
    ensures Zeros(m) + Zeros(n) == Zeros(m + n)
  {
    if n > 0 { ZerosJoin(m, n - 1); }
  }
}
