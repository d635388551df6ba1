/** JavaScript's 32-bit integer operators on numbers that are integers. */
module JsInt {
  import opened Common
  import opened Bits

  /** Bits in a bech32 word and in a byte. */
  const WORD: nat := 5
  const BYTE: nat := 8

  const TWO_32: int := 0x1_0000_0000
  const TWO_31: int := 0x8000_0000

  function ToInt32(x: int): (r: int)
    ensures -TWO_31 <= r < TWO_31
  {
    (x + TWO_31) % TWO_32 - TWO_31
  }

  function ToUint32(x: int): nat { x % TWO_32 }

  /** `x << k` */
  function Shl(x: int, k: nat): int { ToInt32(ToInt32(x) * Pow2(k)) }

  /** `x >> k` */
  function Sar(x: int, k: nat): int { Shifted(ToInt32(x), k) }

  /** `x >>> k` */
  function UShr(x: int, k: nat): int { Shifted(ToUint32(x), k) }

  /** `x & 0x1f` and `x & 0xff` */
  function And31(x: int): nat { ToInt32(x) % 32 }
  function And255(x: int): nat { ToInt32(x) % 256 }

  lemma Pow2Of32()
    ensures Pow2(32) == TWO_32 && Pow2(31) == TWO_31
  {
    assert Pow2(8) == 256;
    assert Pow2(16) == 256 * Pow2(8);
    assert Pow2(24) == 256 * Pow2(16);
    assert Pow2(31) == 128 * Pow2(24);
  }

  /** Whole multiples of 2^32 do not show in the low 32 bits. */
  lemma AddsMultiple(x: int, q: int, n: nat)
    requires n <= 32
    ensures BitsOf(x + q * TWO_32, n) == BitsOf(x, n)
  {
    Pow2Of32();
    BitsModulo(x, q, n, 32);
  }

  /** Truncation to 32 bits, signed or not, keeps the low 32 bits. */
  lemma Truncated(x: int, n: nat)
    requires n <= 32
    ensures BitsOf(ToInt32(x), n) == BitsOf(x, n)
    ensures BitsOf(ToUint32(x), n) == BitsOf(x, n)
  {
    AddsMultiple(ToInt32(x), (x + TWO_31) / TWO_32, n);
    AddsMultiple(ToUint32(x), x / TWO_32, n);
  }

  lemma InRange(x: int)
    requires -TWO_31 <= x < TWO_31
    ensures ToInt32(x) == x
  {
  }

  lemma Wraps(x: int) returns (q: int)
    ensures ToInt32(x) == x + q * TWO_32
  {
    q := -((x + TWO_31) / TWO_32);
  }

  /** A left shift, wrapped, still has the right low 32 bits. */
  lemma ShiftedLeft(x: int, k: nat, n: nat)
    requires -TWO_31 <= x < TWO_31 && n <= 32
    ensures BitsOf(Shl(x, k), n) == BitsOf(x * Pow2(k), n)
  {
    InRange(x);
    Truncated(x * Pow2(k), n);
  }

  lemma Masked31(x: int)
    ensures BitsOf(And31(x), WORD) == BitsOf(x, WORD)
  {
    Truncated(x, WORD);
    WordSizes();
    BitsModulo(And31(x), ToInt32(x) / 32, WORD, WORD);
  }

  lemma Masked255(x: int)
    ensures BitsOf(And255(x), BYTE) == BitsOf(x, BYTE)
  {
    Truncated(x, BYTE);
    WordSizes();
    BitsModulo(And255(x), ToInt32(x) / 256, BYTE, BYTE);
  }

  /** Bits shifted right are the higher ones. */
  lemma ShiftedRight(x: int, m: nat, k: nat)
    requires m + k <= 32
    ensures BitsOf(UShr(x, k), m) + BitsOf(x, k) == BitsOf(x, m + k)
    ensures BitsOf(Sar(x, k), m) + BitsOf(x, k) == BitsOf(x, m + k)
  {
    BitsSplit(ToUint32(x), m, k);
    BitsSplit(ToInt32(x), m, k);
    Truncated(x, m + k);
    Truncated(x, k);
  }

  lemma WordSizes()
    ensures Pow2(WORD) == 32 && Pow2(BYTE) == 256
  {
    assert Pow2(5) == 32;
    assert Pow2(8) == 8 * Pow2(5);
  }
}
