/** Decimal and hexadecimal numerals: printing, reading, and that each undoes the other. */
module Decimal {
  import opened Common

  predicate IsDigit(c: char) { '0' <= c <= '9' }

  predicate AllDigits(s: string) {
    forall i :: 0 <= i < |s| ==> IsDigit(s[i])
  }

  function DigitValue(c: char): nat
    requires IsDigit(c)
  {
    c as int - '0' as int
  }

  function DigitChar(d: nat): (c: char)
    requires d < 10
    ensures IsDigit(c) && DigitValue(c) == d
  {
    (d + '0' as int) as char
  }

  /** The number a string of digits denotes; the empty string denotes 0. */
  function Number(s: string): nat
    requires AllDigits(s)
  {
    if s == "" then 0 else 10 * Number(s[..|s| - 1]) + DigitValue(s[|s| - 1])
  }

  /** `n.toString()` for a natural number. */
  function Digits(n: nat): (s: string)
    ensures s != "" && AllDigits(s)
  {
    if n < 10 then [DigitChar(n)] else Digits(n / 10) + [DigitChar(n % 10)]
  }

  lemma {:induction false} NumberOfDigits(n: nat)
    ensures Number(Digits(n)) == n
  {
    var s := Digits(n);
    if n >= 10 {
      NumberOfDigits(n / 10);
      assert s[..|s| - 1] == Digits(n / 10);
    } else {
      assert s[..|s| - 1] == "";
    }
  }

  lemma DigitsInjective(m: nat, n: nat)
    requires Digits(m) == Digits(n)
    ensures m == n
  {
    NumberOfDigits(m);
    NumberOfDigits(n);
  }

  function Pow10(n: nat): (p: nat)
    ensures p > 0
  {
    if n == 0 then 1 else 10 * Pow10(n - 1)
  }

  lemma {:induction false} NumberJoin(a: string, b: string)
    requires AllDigits(a) && AllDigits(b)
    ensures AllDigits(a + b)
    ensures Number(a + b) == Number(a) * Pow10(|b|) + Number(b)
  {
    if b == "" {
      assert a + b == a;
    } else {
      var front := b[..|b| - 1];
      NumberJoin(a, front);
      assert (a + b)[..|a + b| - 1] == a + front;
      NumberJoinStep(Number(a), Pow10(|front|), Number(front), DigitValue(b[|b| - 1]));
    }
  }

  lemma NumberJoinStep(x: nat, p: nat, y: nat, d: nat)
    ensures 10 * (x * p + y) + d == x * (10 * p) + (10 * y + d)
  {
  }

  lemma {:induction false} NumberBound(s: string)
    requires AllDigits(s)
    ensures Number(s) < Pow10(|s|)
  {
    if s != "" { NumberBound(s[..|s| - 1]); }
  }

  function Zeros(n: nat): (s: string)
    ensures |s| == n && AllDigits(s)
  {
    if n == 0 then "" else Zeros(n - 1) + "0"
  }

  lemma {:induction false} NumberOfZeros(n: nat)
    ensures Number(Zeros(n)) == 0
  {
    if n > 0 {
      NumberOfZeros(n - 1);
      assert Zeros(n)[..|Zeros(n)| - 1] == Zeros(n - 1);
    }
  }

  lemma {:induction false} DigitsLength(n: nat, k: nat)
    requires k > 0 && n < Pow10(k)
    ensures |Digits(n)| <= k
  {
    if n >= 10 {
      assert Pow10(1) == 10;
      DigitsLength(n / 10, k - 1);
    }
  }

  // ---------- Hexadecimal ----------

  predicate IsHex(c: char) { '0' <= c <= '9' || 'a' <= c <= 'f' }

  predicate AllHex(s: string) {
    forall i :: 0 <= i < |s| ==> IsHex(s[i])
  }

  function HexChar(d: nat): (c: char)
    requires d < 16
    ensures IsHex(c) && HexValue(c) == d
  {
    if d < 10 then (d + '0' as int) as char else (d - 10 + 'a' as int) as char
  }

  function HexValue(c: char): nat
    requires IsHex(c)
  {
    if c <= '9' then c as int - '0' as int else c as int - 'a' as int + 10
  }

  /** `bytesToHex` */
  function ToHex(b: Bytes): (s: string)
    ensures |s| == 2 * |b| && AllHex(s)
  {
    if b == [] then "" else [HexChar(b[0] / 16), HexChar(b[0] % 16)] + ToHex(b[1..])
  }

  /** `hexToBytes`: throws on an odd length or a character that is not lower-case hex. */
  function FromHex(s: string): Option<Bytes> {
    if |s| % 2 != 0 || !AllHex(s) then None else Some(HexPairs(s))
  }

  function HexPairs(s: string): Bytes
    requires |s| % 2 == 0 && AllHex(s)
  {
    if s == "" then [] else [HexValue(s[0]) * 16 + HexValue(s[1])] + HexPairs(s[2..])
  }

  lemma {:induction false} HexRoundTrip(b: Bytes)
    ensures FromHex(ToHex(b)) == Some(b)
  {
    if b != [] {
      HexRoundTrip(b[1..]);
      var s := ToHex(b);
      assert s[2..] == ToHex(b[1..]);
      assert HexValue(s[0]) * 16 + HexValue(s[1]) == b[0];
      assert [b[0]] + b[1..] == b;
    }
  }

  lemma HexInjective(a: Bytes, b: Bytes)
    requires ToHex(a) == ToHex(b)
    ensures a == b
  {
    HexRoundTrip(a);
    HexRoundTrip(b);
  }

  /** Reading hexadecimal and printing it gives the text back. */
  lemma {:induction false} HexInverse(s: string)
    requires FromHex(s).Some?
    ensures ToHex(FromHex(s).value) == s
  {
    if s != "" {
      var rest := s[2..];
      assert AllHex(rest);
      HexInverse(rest);
      HexDigits(s[0], s[1]);
      var b := HexPairs(s);
      assert b[0] == HexValue(s[0]) * 16 + HexValue(s[1]) && b[1..] == HexPairs(rest);
      assert s == [s[0], s[1]] + rest;
    }
  }

  lemma HexDigits(c: char, d: char)
    requires IsHex(c) && IsHex(d)
    ensures var x := HexValue(c) * 16 + HexValue(d); 0 <= x < 256 && HexChar(x / 16) == c && HexChar(x % 16) == d
  {
  }
}
