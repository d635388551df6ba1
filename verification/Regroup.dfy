/** 5-bit words and 8-bit bytes: the two directions the invoice encoder needs, and the reader's. */
module Regroup {
  import opened Common
  import opened Bits
  import opened JsInt

  /** bech32's `toWords`: BIP 173's regrouping of bytes to words, the last word padded with zeros. */
  function ToWords(bytes: seq<nat>): seq<nat> {
    Group(Spread(bytes, BYTE), WORD)
  }

  /** What a reader takes from words: the whole bytes, fewer than eight trailing bits dropped. */
  function ToBytes(words: seq<nat>): seq<nat> {
    Group(Whole(Spread(words, WORD), BYTE), BYTE)
  }

  /** The next accumulator: `(value << 5) | (word & 0x1f)`; the low five bits of the shift are zero. */
  function Pushed(value: int, word: nat): int {
    Shl(value, WORD) + And31(word)
  }

  lemma PushedRange(value: int, word: nat)
    requires -TWO_31 <= value < TWO_31
    ensures Shl(value, WORD) % 32 == 0 && -TWO_31 <= Pushed(value, word) < TWO_31
  {
    InRange(value);
    WordSizes();
  }

  lemma PushedWraps(value: int, word: nat) returns (q: int)
    requires -TWO_31 <= value < TWO_31
    ensures Pushed(value, word) == value * Pow2(WORD) + And31(word) + q * TWO_32
  {
    InRange(value);
    q := Wraps(value * Pow2(WORD));
  }

  /** One more word below what is already held. */
  lemma PushWord(value: int, word: nat, bits: nat)
    requires bits + 5 <= 32 && -TWO_31 <= value < TWO_31
    ensures BitsOf(Pushed(value, word), bits + 5) == BitsOf(value, bits) + BitsOf(word, WORD)
  {
    WordSizes();
    var q := PushedWraps(value, word);
    var low := And31(word);
    AddsMultiple(value * Pow2(WORD) + low, q, bits + 5);
    BitsJoin(value, low, bits, WORD);
    Masked31(word);
  }

  lemma PopByte(value: int, bits: nat)
    requires bits + 8 <= 32
    ensures BitsOf(And255(UShr(value, bits)), BYTE) + BitsOf(value, bits) == BitsOf(value, bits + 8)
  {
    Masked255(UShr(value, bits));
    ShiftedRight(value, 8, bits);
  }

  lemma LastByte(value: int, bits: nat)
    requires bits < 8 && -TWO_31 <= value < TWO_31
    ensures BitsOf(And255(Shl(value, 8 - bits)), BYTE) == BitsOf(value, bits) + Zeros(8 - bits)
  {
    Masked255(Shl(value, 8 - bits));
    ShiftedLeft(value, 8 - bits, BYTE);
    ShiftIn(value, bits, 8 - bits);
  }

  /** The accumulator invariant: the bytes written and the pending low bits are the words read so far. */
  ghost predicate Holds(result: seq<nat>, value: int, bits: nat, words: seq<nat>) {
    Fits(result, BYTE) && Spread(result, BYTE) + BitsOf(value, bits) == Spread(words, WORD)
  }

  lemma Read(result: seq<nat>, value: int, bits: nat, words: seq<nat>, word: nat)
    requires bits < 8 && -TWO_31 <= value < TWO_31 && Holds(result, value, bits, words)
    ensures Holds(result, Pushed(value, word), bits + 5, words + [word])
    ensures -TWO_31 <= Pushed(value, word) < TWO_31
  {
    PushWord(value, word, bits);
    ReadSymbol(result, BYTE, BitsOf(value, bits), words, WORD, word);
    PushedRange(value, word);
  }

  lemma Popped(result: seq<nat>, value: int, bits: nat, words: seq<nat>, b: nat)
    requires Holds(result, value, bits + 8, words) && b < 256
    requires BitsOf(b, BYTE) + BitsOf(value, bits) == BitsOf(value, bits + 8)
    ensures Holds(result + [b], value, bits, words)
  {
    WordSizes();
    WriteSymbol(result, BYTE, b, BitsOf(value, bits), Spread(words, WORD));
  }

  /**
   * `wordsToBuffer`. The accumulator is shifted left for ever and wraps at 32 bits, yet every byte is
   * right: the bits of the words, then fewer than eight zeros.
   */
  method WordsToBuffer(words: seq<nat>) returns (result: seq<nat>)
    ensures result == Group(Spread(words, WORD), BYTE)
    ensures Spread(result, BYTE) == Spread(words, WORD) + Zeros(Padding(WORD * |words|, BYTE)) && Padding(WORD * |words|, BYTE) < 8
    ensures |result| == (5 * |words| + 7) / 8 && Fits(result, BYTE)
  {
    result := [];
    var bits: nat := 0;
    var value := 0;
    var i := 0;
    while i < |words|
      invariant 0 <= i <= |words| && bits < 8 && -TWO_31 <= value < TWO_31
      invariant Holds(result, value, bits, words[..i])
    {
      ghost var sofar := words[..i + 1];
      assert sofar == words[..i] + [words[i]];
      Read(result, value, bits, words[..i], words[i]);
      value := Pushed(value, words[i]);
      bits := bits + 5;
      while bits >= 8
        invariant bits < 13 && Holds(result, value, bits, sofar)
      {
        bits := bits - 8;
        var b := And255(UShr(value, bits));
        PopByte(value, bits);
        Popped(result, value, bits, sofar, b);
        result := result + [b];
      }
      i := i + 1;
    }
    assert words[..i] == words;
    var last := And255(Shl(value, 8 - bits));
    LastByte(value, bits);
    Finish(words, result, value, bits, last);
    if bits > 0 {
      result := result + [last];
    }
    Buffered(words);
  }

  lemma Buffered(words: seq<nat>)
    ensures var r := Group(Spread(words, WORD), BYTE);
      && Spread(r, BYTE) == Spread(words, WORD) + Zeros(Padding(WORD * |words|, BYTE)) && Padding(WORD * |words|, BYTE) < 8
      && |r| == (5 * |words| + 7) / 8 && Fits(r, BYTE)
  {
    Regrouped(words, WORD, BYTE);
  }

  lemma Finish(words: seq<nat>, result: seq<nat>, value: int, bits: nat, last: nat)
    requires bits < 8 && Holds(result, value, bits, words) && last < 256
    requires BitsOf(last, BYTE) == BitsOf(value, bits) + Zeros(8 - bits)
    ensures Group(Spread(words, WORD), BYTE) == result + if bits > 0 then [last] else []
  {
    GroupJoin(result, BitsOf(value, bits), BYTE);
    WordSizes();
    ValueOfSmall(last, BYTE);
  }

  // ---------- The three regroupings undo each other ----------

  lemma ToWordsBits(bytes: seq<nat>)
    ensures var words := ToWords(bytes);
      && Spread(words, WORD) == Spread(bytes, BYTE) + Zeros(Padding(BYTE * |bytes|, WORD))
      && |words| == (8 * |bytes| + 4) / 5 && Fits(words, WORD)
  {
    Regrouped(bytes, BYTE, WORD);
  }

  /** A reader gets the bytes back from their words. */
  lemma ToBytesToWords(bytes: seq<nat>)
    requires Fits(bytes, BYTE)
    ensures ToBytes(ToWords(bytes)) == bytes
  {
    RegroupBack(bytes, BYTE, WORD);
  }

  lemma {:induction false} PaddingOfWords(n: nat)
    ensures Padding(n, WORD) == 0 <==> n % 5 == 0
  {
    if n >= 5 { PaddingOfWords(n - 5); }
  }

  lemma PaddingOfBytes(n: nat)
    ensures Padding(BYTE * n, WORD) == 0 <==> n % 5 == 0
  {
    PaddingOfWords(8 * n);
    FiveDivides(n, n / 5, n % 5);
  }

  lemma FiveDivides(n: nat, k: nat, r: nat)
    requires n == 5 * k + r && r < 5
    ensures (8 * n) % 5 == 0 <==> r == 0
  {
    assert 8 * n == 5 * (8 * k) + 8 * r;
  }

  /** `wordsToBuffer` does not drop the padding: bytes to words and back gains at most one zero byte. */
  lemma BufferOfWords(bytes: seq<nat>)
    requires Fits(bytes, BYTE)
    ensures Group(Spread(ToWords(bytes), WORD), BYTE) == bytes + if |bytes| % 5 == 0 then [] else [0]
  {
    RegroupPadded(bytes, BYTE, WORD);
    PaddingOfBytes(|bytes|);
  }
}
