/** The pieces of a BOLT 11 data part: tagged fields, integers, big-endian bytes and route hints. */
module Bolt11Fields {
  import opened Common
  import opened Bits
  import opened JsInt
  import opened Regroup

  // ---------- Reading back n bits ----------

  /** v modulo 2^n: what n bits can carry. */
  function Kept(v: int, n: nat): nat {
    ValueOf(BitsOf(v, n))
  }

  /** v is what n bits carry plus a multiple of 2^n. */
  lemma KeptPlus(v: int, n: nat, m: nat) returns (q: int)
    requires m == Pow2(n)
    ensures 0 <= Kept(v, n) < m && Kept(v, n) + m * q == v
  {
    q := Shifted(v, n);
    ValueBound(BitsOf(v, n));
    ValueOfBits(v, n);
  }

  /** Big-endian numbers in words of 5 bits: "Data Part" and "Tagged Fields" of BOLT 11. */
  function WordsNumber(ws: seq<nat>): nat {
    if ws == [] then 0 else 32 * WordsNumber(ws[..|ws| - 1]) + ws[|ws| - 1]
  }

  lemma {:induction false} WordsNumberBits(ws: seq<nat>)
    requires Fits(ws, WORD)
    ensures WordsNumber(ws) == ValueOf(Spread(ws, WORD))
  {
    if ws != [] {
      var front, last := ws[..|ws| - 1], ws[|ws| - 1];
      WordsNumberBits(front);
      SpreadSnoc(front, last, WORD);
      assert ws == front + [last];
      WordSizes();
      ValuePush(Spread(front, WORD), last, WORD);
      assert ValueOf(Spread(front, WORD)) * Pow2(WORD) == 32 * ValueOf(Spread(front, WORD));
    }
  }

  // ---------- intToWords ----------

  /** The shortest base-32 numeral; [0] for zero. */
  function IntWords(n: nat): (r: seq<nat>)
    ensures r != [] && Fits(r, WORD)
  {
    WordSizes();
    if n < 32 then [n] else IntWords(n / 32) + [n % 32]
  }

  lemma {:induction false} NumberOfIntWords(n: nat)
    ensures WordsNumber(IntWords(n)) == n
  {
    var r := IntWords(n);
    if n >= 32 {
      NumberOfIntWords(n / 32);
      assert r[..|r| - 1] == IntWords(n / 32);
    }
  }

  /** What `intToWords` really encodes: its shifts work on 32 signed bits. */
  function IntEncoded(n: nat): nat {
    if ToInt32(n) < 32 then n % 32 else ToInt32(n)
  }

  lemma IntExact(n: nat)
    ensures IntEncoded(n) == n <==> n < TWO_31
  {
  }

  lemma ShiftFive(x: int)
    ensures Sar(x, WORD) == ToInt32(x) / 32
  {
  }

  /** `intToWords` */
  method IntToWords(n: nat) returns (words: seq<nat>)
    ensures words == IntWords(IntEncoded(n))
  {
    if n == 0 {
      return [0];
    }
    words := [];
    var remaining: int := n;
    while remaining > 0
      invariant (remaining == n && words == []) || (remaining < TWO_31 && Rest(n, remaining, words))
      decreases remaining
    {
      ShiftFive(remaining);
      var next := Sar(remaining, WORD);
      IntStep(n, remaining, words, next);
      words := [And31(remaining)] + words;
      remaining := next;
    }
  }

  /** What is still to be written in front of `words`. */
  ghost predicate Rest(n: nat, remaining: int, words: seq<nat>) {
    IntWords(IntEncoded(n)) == if remaining > 0 then IntWords(remaining) + words else words
  }

  lemma IntStep(n: nat, remaining: int, words: seq<nat>, next: int)
    requires remaining > 0 && next == ToInt32(remaining) / 32
    requires (remaining == n && words == []) || (remaining < TWO_31 && Rest(n, remaining, words))
    ensures Rest(n, next, [And31(remaining)] + words)
    ensures next < TWO_31 && next < remaining
  {
    if remaining == n && words == [] {
      FirstStep(n);
    } else {
      InRange(remaining);
      if next > 0 {
        assert IntWords(remaining) + words == IntWords(next) + ([remaining % 32] + words);
      }
    }
  }

  lemma FirstStep(n: nat)
    requires n > 0
    ensures Rest(n, ToInt32(n) / 32, [And31(n)])
  {
    assert And31(n) == n % 32 by { Low(n); }
  }

  lemma Low(n: nat)
    ensures ToInt32(n) % 32 == n % 32
  {
    var q := Wraps(n);
    assert ToInt32(n) == n + 32 * (q * 0x800_0000);
  }

  // ---------- Big-endian bytes ----------

  /** `bigintToBytes` as a function: the low n bytes of v, most significant first. */
  function BigEndian(v: int, n: nat): (r: seq<nat>)
    ensures |r| == n && Fits(r, BYTE)
    decreases n
  {
    WordSizes();
    if n == 0 then [] else BigEndian(v / 256, n - 1) + [v % 256]
  }

  lemma ByteOf(v: int)
    ensures BitsOf(v % 256, BYTE) == BitsOf(v, BYTE) && Shifted(v, BYTE) == v / 256
  {
    WordSizes();
    BitsModulo(v % 256, v / 256, BYTE, BYTE);
  }

  lemma {:induction false} BigEndianBits(v: int, n: nat)
    ensures Spread(BigEndian(v, n), BYTE) == BitsOf(v, n * BYTE)
    decreases n
  {
    if n > 0 {
      BigEndianBits(v / 256, n - 1);
      SpreadSnoc(BigEndian(v / 256, n - 1), v % 256, BYTE);
      ByteOf(v);
      BitsSplit(v, (n - 1) * BYTE, BYTE);
    }
  }

  function FromBigEndian(bytes: seq<nat>): nat {
    ValueOf(Spread(bytes, BYTE))
  }

  lemma ReadBigEndian(v: int, n: nat)
    ensures FromBigEndian(BigEndian(v, n)) == Kept(v, n * BYTE)
  {
    BigEndianBits(v, n);
  }

  /** `bigintToBytes`, filling the array from its end. */
  method BigintToBytes(value: int, length: nat) returns (bytes: array<nat>)
    ensures fresh(bytes) && bytes[..] == BigEndian(value, length)
  {
    bytes := new nat[length](i => 0);
    var remaining := value;
    var i := length;
    while i > 0
      invariant 0 <= i <= length == bytes.Length
      invariant BigEndian(remaining, i) + bytes[i..] == BigEndian(value, length)
    {
      i := i - 1;
      ghost var rest := bytes[i + 1..];
      bytes[i] := remaining % 256;
      assert bytes[i..] == [remaining % 256] + rest;
      remaining := remaining / 256;
    }
  }
}
