/** Amounts and the payment URI of `bip321.ts`. */
module Bip321 {
  import opened Common
  import opened Decimal
  import opened JsString

  const SATS_PER_BTC: nat := 100_000_000

  /** Decimal places of a satoshi. */
  const PLACES: nat := 8

  // ---------- Amounts ----------

  /** `satsToBtcString` of a non-negative amount (a negative one throws). */
  function SatsToBtcString(sats: nat): string {
    PrintFixed(sats / SATS_PER_BTC, sats % SATS_PER_BTC, PLACES)
  }

  function PrintFixed(whole: nat, rest: nat, n: nat): string {
    Digits(whole) + "." + PadStart(Digits(rest), n)
  }

  /** `s.padStart(n, '0')` */
  function PadStart(s: string, n: nat): (r: string)
    ensures AllDigits(s) ==> AllDigits(r)
  {
    if |s| >= n then s else Zeros(n - |s|) + s
  }

  /** `/^\d+(\.\d+)?$/` with its two groups. */
  datatype Numeral = Numeral(whole: string, frac: string) | NotANumeral

  function ParseNumeral(s: string): Numeral {
    var dot := IndexOf(s, '.');
    if dot == |s| then
      if s != "" && AllDigits(s) then Numeral(s, "") else NotANumeral
    else
      var whole, frac := s[..dot], s[dot + 1..];
      if whole != "" && frac != "" && AllDigits(whole) && AllDigits(frac) then Numeral(whole, frac) else NotANumeral
  }

  /** `(frac + '00000000').slice(0, 8)` for n = 8 */
  function FirstDigits(frac: string, n: nat): (r: string)
    ensures |r| == n
  {
    (frac + Zeros(n))[..n]
  }

  /** `btcStringToSats` */
  function BtcStringToSats(text: string): Option<nat> {
    ReadFixed(ParseNumeral(Trim(text)), PLACES, SATS_PER_BTC)
  }

  function ReadFixed(r: Numeral, n: nat, unit: nat): Option<nat> {
    if r.Numeral? && AllDigits(r.whole) && AllDigits(FirstDigits(r.frac, n)) then
      Some(Number(r.whole) * unit + Number(FirstDigits(r.frac, n)))
    else None
  }

  lemma NumeralDigits(s: string, n: nat)
    ensures ParseNumeral(s).Numeral? ==>
      var r := ParseNumeral(s);
      AllDigits(r.whole) && r.whole != "" && AllDigits(r.frac) && AllDigits(FirstDigits(r.frac, n))
  {
  }

  lemma Pow10Of8()
    ensures Pow10(PLACES) == SATS_PER_BTC
  {
    assert Pow10(4) == 10_000;
    Pow10Sum(4, 4);
  }

  lemma {:induction false} Pow10Sum(m: nat, n: nat)
    ensures Pow10(m + n) == Pow10(m) * Pow10(n)
    decreases m
  {
    if m > 0 {
      Pow10Sum(m - 1, n);
      Times(Pow10(m - 1), Pow10(n));
    }
  }

  lemma Times(a: nat, b: nat)
    ensures (10 * a) * b == 10 * (a * b)
  {
  }

  /** s is floor(unit * num / den). */
  predicate IsFloor(s: nat, num: nat, den: nat, unit: nat) {
    s * den <= num * unit < (s + 1) * den
  }

  /** Cutting or padding the fraction to n digits keeps the whole part of 10^n times the value. */
  lemma CutIsFloor(whole: string, frac: string, n: nat)
    requires AllDigits(whole) && AllDigits(frac)
    ensures AllDigits(whole + frac) && AllDigits(whole + FirstDigits(frac, n))
    ensures IsFloor(Number(whole + FirstDigits(frac, n)), Number(whole + frac), Pow10(|frac|), Pow10(n))
  {
    if |frac| <= n {
      ZerosPrefix(n, n - |frac|);
      assert whole + FirstDigits(frac, n) == (whole + frac) + Zeros(n - |frac|);
      PaddingIsFloor(whole + frac, |frac|, n - |frac|);
    } else {
      var head, tail := frac[..n], frac[n..];
      assert FirstDigits(frac, n) == head && whole + frac == (whole + head) + tail;
      TailIsLess(whole + head, n, tail);
    }
  }

  lemma PaddingIsFloor(s: string, n: nat, k: nat)
    requires AllDigits(s)
    ensures AllDigits(s + Zeros(k))
    ensures IsFloor(Number(s + Zeros(k)), Number(s), Pow10(n), Pow10(k + n))
  {
    NumberJoin(s, Zeros(k));
    NumberOfZeros(k);
    Pow10Sum(k, n);
    ShortFraction(Number(s), Pow10(n), Pow10(k), Number(s + Zeros(k)), Pow10(k + n));
  }

  lemma TailIsLess(head: string, n: nat, tail: string)
    requires AllDigits(head) && AllDigits(tail)
    ensures AllDigits(head + tail)
    ensures IsFloor(Number(head), Number(head + tail), Pow10(n + |tail|), Pow10(n))
  {
    NumberJoin(head, tail);
    NumberBound(tail);
    Pow10Sum(n, |tail|);
    LongFraction(Number(head + tail), Pow10(n + |tail|), Number(head), Pow10(n), Pow10(|tail|), Number(tail));
  }

  lemma {:induction false} ZerosPrefix(m: nat, n: nat)
    requires n <= m
    ensures Zeros(m)[..n] == Zeros(n)
  {
    if n < m {
      ZerosPrefix(m - 1, n);
      assert Zeros(m)[..n] == Zeros(m - 1)[..n];
    }
  }

  lemma ShortFraction(f: nat, p: nat, q: nat, e: nat, pq: nat)
    requires p > 0 && e == f * q && pq == q * p
    ensures IsFloor(e, f, p, pq)
  {
    assert e * p == f * pq;
    assert (e + 1) * p == e * p + p;
  }

  lemma LongFraction(f: nat, p: nat, e: nat, p8: nat, q: nat, t: nat)
    requires t < q && p8 > 0 && f == e * q + t && p == p8 * q
    ensures IsFloor(e, f, p, p8)
  {
    assert f * p8 == e * (q * p8) + t * p8;
    assert (e + 1) * p == e * p + p;
    LessTimes(t, q, p8);
  }

  lemma LessTimes(t: nat, q: nat, p: nat)
    requires t < q && p > 0
    ensures t * p < q * p
  {
  }

  /** The value of a decimal string is `Number(whole + frac) / 10^|frac|` bitcoin. */
  function Numerator(n: Numeral): nat
    requires n.Numeral? && AllDigits(n.whole) && AllDigits(n.frac)
  {
    assert AllDigits(n.whole + n.frac);
    Number(n.whole + n.frac)
  }

  /** Exactly the decimal strings are read, each as the whole satoshis of its value. */
  lemma ReadsFloor(text: string)
    ensures var r := ParseNumeral(Trim(text));
      && (BtcStringToSats(text).Some? <==> r.Numeral?)
      && (r.Numeral? ==>
            AllDigits(r.whole) && AllDigits(r.frac)
            && IsFloor(BtcStringToSats(text).value, Numerator(r), Pow10(|r.frac|), 100_000_000))
  {
    Pow10Of8();
    FixedIsFloor(Trim(text), PLACES, SATS_PER_BTC);
  }

  lemma FixedIsFloor(s: string, n: nat, unit: nat)
    requires unit == Pow10(n)
    ensures var r := ParseNumeral(s);
      && (ReadFixed(r, n, unit).Some? <==> r.Numeral?)
      && (r.Numeral? ==>
            AllDigits(r.whole) && AllDigits(r.frac)
            && IsFloor(ReadFixed(r, n, unit).value, Numerator(r), Pow10(|r.frac|), unit))
  {
    var r := ParseNumeral(s);
    NumeralDigits(s, n);
    if r.Numeral? {
      CutIsFloor(r.whole, r.frac, n);
      NumberJoin(r.whole, FirstDigits(r.frac, n));
    }
  }

  lemma DigitsTight(s: string)
    requires s != "" && IsDigit(s[0]) && IsDigit(s[|s| - 1])
    ensures Trim(s) == s
  {
    TrimTight(s);
  }

  lemma Padded(s: string, n: nat)
    requires AllDigits(s) && |s| <= n
    ensures var r := PadStart(s, n); |r| == n && AllDigits(r) && Number(r) == Number(s)
  {
    if |s| < n {
      NumberJoin(Zeros(n - |s|), s);
      NumberOfZeros(n - |s|);
    }
  }

  lemma NumeralOf(whole: string, frac: string)
    requires whole != "" && frac != "" && AllDigits(whole) && AllDigits(frac)
    ensures ParseNumeral(Trim(whole + "." + frac)) == Numeral(whole, frac)
  {
    var s := whole + ['.'] + frac;
    DigitsTight(s);
    IndexOfFirst(whole, '.', frac);
    assert s[..|whole|] == whole && s[|whole| + 1..] == frac;
  }

  lemma PlacesOf(f: nat, n: nat)
    requires 0 < n && f < Pow10(n)
    ensures var s := PadStart(Digits(f), n);
      s != "" && AllDigits(s) && FirstDigits(s, n) == s && Number(s) == f
  {
    DigitsLength(f, n);
    Padded(Digits(f), n);
    NumberOfDigits(f);
  }

  lemma FixedValue(v: nat, w: nat, f: nat, n: nat, unit: nat)
    requires 0 < n && f < unit == Pow10(n) && v == w * unit + f
    ensures ReadFixed(Numeral(Digits(w), PadStart(Digits(f), n)), n, unit) == Some(v)
  {
    NumberOfDigits(w);
    PlacesOf(f, n);
  }

  lemma PrintedNumeral(w: nat, f: nat, n: nat)
    requires 0 < n
    ensures ParseNumeral(Trim(PrintFixed(w, f, n))) == Numeral(Digits(w), PadStart(Digits(f), n))
  {
    NumeralOf(Digits(w), PadStart(Digits(f), n));
  }

  lemma FixedRoundTrip(v: nat, w: nat, f: nat, n: nat, unit: nat)
    requires 0 < n && f < unit == Pow10(n) && v == w * unit + f
    ensures ReadFixed(ParseNumeral(Trim(PrintFixed(w, f, n))), n, unit) == Some(v)
  {
    PrintedNumeral(w, f, n);
    FixedValue(v, w, f, n, unit);
  }

  lemma SplitSats(sats: nat)
    ensures sats == (sats / SATS_PER_BTC) * SATS_PER_BTC + sats % SATS_PER_BTC
    ensures sats % SATS_PER_BTC < SATS_PER_BTC == Pow10(PLACES)
  {
    Pow10Of8();
  }

  /** Printing and reading an amount gives it back. */
  lemma SatsRoundTrip(sats: nat)
    ensures BtcStringToSats(SatsToBtcString(sats)) == Some(sats)
  {
    SplitSats(sats);
    FixedRoundTrip(sats, sats / SATS_PER_BTC, sats % SATS_PER_BTC, PLACES, SATS_PER_BTC);
  }

  /** Amounts are printed with eight places. */
  lemma EightPlaces(sats: nat) returns (frac: string)
    ensures SatsToBtcString(sats) == Digits(sats / 100_000_000) + "." + frac
    ensures |frac| == 8 && AllDigits(frac)
  {
    frac := PadStart(Digits(sats % SATS_PER_BTC), PLACES);
    SplitSats(sats);
    PlacesLength(sats % SATS_PER_BTC);
  }

  lemma PlacesLength(f: nat)
    requires f < SATS_PER_BTC
    ensures |PadStart(Digits(f), PLACES)| == 8
  {
    Pow10Of8();
    DigitsLength(f, PLACES);
  }
}
