/** The human-readable part: the amount, its multiplier, and reading it back. */
module Bolt11Amount {
  import opened Common
  import opened Decimal

  const PREFIX: string := "lnbc"

  const PICO_PER_MILLI: nat := 1_000_000_000
  const PICO_PER_MICRO: nat := 1_000_000
  const PICO_PER_NANO: nat := 1_000

  /** `buildHrp` */
  function BuildHrp(amountMsat: int): string {
    if amountMsat <= 0 then PREFIX
    else
      var pico: nat := amountMsat * 10;
      if pico % PICO_PER_MILLI == 0 then PREFIX + Digits(pico / PICO_PER_MILLI) + "m"
      else if pico % PICO_PER_MICRO == 0 then PREFIX + Digits(pico / PICO_PER_MICRO) + "u"
      else if pico % PICO_PER_NANO == 0 then PREFIX + Digits(pico / PICO_PER_NANO) + "n"
      else PREFIX + Digits(pico) + "p"
  }

  // ---------- "Human-Readable Part" of BOLT 11, read ----------

  datatype Amount = NoAmount | Msat(msat: nat) | Malformed

  /** pico-BTC per unit of a multiplier letter: m 0.001, u 0.000001, n 0.000000001, p 0.000000000001 bitcoin. */
  function Unit(c: char): Option<nat> {
    if c == 'm' then Some(1_000_000_000)
    else if c == 'u' then Some(1_000_000)
    else if c == 'n' then Some(1_000)
    else if c == 'p' then Some(1)
    else None
  }

  /** An amount without a multiplier counts bitcoins; a `p` amount must be a whole number of msat. */
  function ReadAmount(s: string): Amount {
    if s == "" then NoAmount
    else
      var last := s[|s| - 1];
      var digits := if IsDigit(last) then s else s[..|s| - 1];
      var unit := if IsDigit(last) then Some(1_000_000_000_000) else Unit(last);
      if unit.None? || digits == "" || !AllDigits(digits) || digits[0] == '0' then Malformed
      else
        var pico := Number(digits) * unit.value;
        if pico % 10 != 0 then Malformed else Msat(pico / 10)
  }

  function ReadHrp(s: string): Amount {
    if |s| < 4 || s[..4] != "lnbc" then Malformed else ReadAmount(s[4..])
  }

  lemma {:induction false} DigitsNoLeadingZero(n: nat)
    requires n > 0
    ensures Digits(n)[0] != '0'
  {
    if n >= 10 { DigitsNoLeadingZero(n / 10); }
  }

  lemma ReadUnit(n: nat, c: char, unit: nat, msat: nat)
    requires n > 0 && Unit(c) == Some(unit) && !IsDigit(c) && n * unit == msat * 10
    ensures ReadHrp(PREFIX + Digits(n) + [c]) == Msat(msat)
  {
    var s := PREFIX + Digits(n) + [c];
    assert s[..4] == PREFIX && s[4..] == Digits(n) + [c];
    assert s[4..][..|s[4..]| - 1] == Digits(n);
    NumberOfDigits(n);
    DigitsNoLeadingZero(n);
  }

  /** Every positive amount is read back exactly; anything else yields an amountless invoice. */
  lemma AmountRoundTrip(amountMsat: int)
    ensures ReadHrp(BuildHrp(amountMsat)) == if amountMsat > 0 then Msat(amountMsat) else NoAmount
  {
    if amountMsat <= 0 {
      assert PREFIX[4..] == "";
    } else {
      ReadPositive(amountMsat, amountMsat * 10);
    }
  }

  lemma ReadPositive(msat: nat, pico: nat)
    requires msat > 0 && pico == msat * 10
    ensures ReadHrp(BuildHrp(msat)) == Msat(msat)
  {
    if pico % PICO_PER_MILLI == 0 { ReadUnit(pico / PICO_PER_MILLI, 'm', PICO_PER_MILLI, msat); }
    else if pico % PICO_PER_MICRO == 0 { ReadUnit(pico / PICO_PER_MICRO, 'u', PICO_PER_MICRO, msat); }
    else if pico % PICO_PER_NANO == 0 { ReadUnit(pico / PICO_PER_NANO, 'n', PICO_PER_NANO, msat); }
    else { ReadUnit(pico, 'p', 1, msat); }
  }

  /** So different amounts never share a prefix. */
  lemma AmountInjective(a: int, b: int)
    requires a > 0 && b > 0 && BuildHrp(a) == BuildHrp(b)
    ensures a == b
  {
    AmountRoundTrip(a);
    AmountRoundTrip(b);
  }

  /** The multiplier is the largest of m, u, n, p that is exact, and a p amount ends in the digit 0. */
  lemma LargestMultiplier(amountMsat: nat, c: char, unit: nat)
    requires amountMsat > 0 && Unit(c) == Some(unit) && (amountMsat * 10) % unit == 0
    ensures var s := BuildHrp(amountMsat);
      var last := s[|s| - 1];
      && Unit(last).Some? && Unit(last).value >= unit
      && (amountMsat * 10) % Unit(last).value == 0
      && (last == 'p' ==> s[|s| - 2] == '0')
  {
    var pico := amountMsat * 10;
    assert pico % 10 == 0;
    var s := BuildHrp(amountMsat);
    if s[|s| - 1] == 'p' {
      var ds := Digits(pico);
      assert s == PREFIX + ds + "p";
      assert ds[|ds| - 1] == DigitChar(pico % 10);
    }
  }
}
