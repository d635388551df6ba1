/** Short channel ids: "block x tx x output" text to a 64-bit number and back. */
module Scid {
  import opened Common
  import opened Decimal
  import opened JsString

  const TWO_16: int := 0x1_0000
  const TWO_24: int := 0x100_0000
  const TWO_40: int := 0x100_0000_0000
  const TWO_64: int := 0x1_0000_0000_0000_0000

  // ---------- BigInt(text) ----------

  function DigitIn(c: char, base: nat): Option<nat> {
    var d :=
      if '0' <= c <= '9' then Some(c as int - '0' as int)
      else if 'a' <= c <= 'f' then Some(c as int - 'a' as int + 10)
      else if 'A' <= c <= 'F' then Some(c as int - 'A' as int + 10)
      else None;
    if d.Some? && d.value < base then d else None
  }

  /** A non-empty numeral in the base. */
  function NumeralIn(s: string, base: nat): Option<nat> {
    if s == "" then None
    else
      match DigitIn(s[|s| - 1], base)
      case None => None
      case Some(d) =>
        if |s| == 1 then Some(d)
        else
          match NumeralIn(s[..|s| - 1], base)
          case None => None
          case Some(n) => Some(n * base + d)
  }

  /** `BigInt(s)` on a trimmed string: empty is 0, a sign only before decimal digits; otherwise it throws. */
  function BigIntOf(s: string): Option<int> {
    if s == "" then Some(0)
    else if |s| >= 2 && s[0] == '0' && s[1] in "bB" then AsInt(NumeralIn(s[2..], 2))
    else if |s| >= 2 && s[0] == '0' && s[1] in "oO" then AsInt(NumeralIn(s[2..], 8))
    else if |s| >= 2 && s[0] == '0' && s[1] in "xX" then AsInt(NumeralIn(s[2..], 16))
    else if s[0] == '+' then AsInt(NumeralIn(s[1..], 10))
    else if s[0] == '-' then
      match NumeralIn(s[1..], 10)
      case None => None
      case Some(n) => (var m: int := 0 - n; Some(m))
    else AsInt(NumeralIn(s, 10))
  }

  function AsInt(n: Option<nat>): Option<int> {
    if n.Some? then Some(n.value) else None
  }

  // ---------- parseLsps2Scid ----------

  datatype Parsed = Id(scid: int) | InvalidFormat | NotANumber | OutOfRange

  /** `(block << 40n) | (tx << 16n) | output`; the three parts do not overlap. */
  function Pack(block: int, tx: int, output: int): int {
    block * TWO_40 + tx * TWO_16 + output
  }

  predicate InRange(block: int, tx: int, output: int) {
    0 <= block < TWO_24 && 0 <= tx < TWO_24 && 0 <= output < TWO_16
  }

  function ParseScid(s: string): Parsed {
    var parts := Split(s, 'x');
    if |parts| != 3 then InvalidFormat
    else
      var block, tx, output := BigIntOf(Trim(parts[0])), BigIntOf(Trim(parts[1])), BigIntOf(Trim(parts[2]));
      if block.None? || tx.None? || output.None? then NotANumber
      else if !InRange(block.value, tx.value, output.value) then OutOfRange
      else Id(Pack(block.value, tx.value, output.value))
  }

  /** BOLT 7's fields of a short channel id. */
  function Block(scid: int): int { scid / TWO_40 }
  function Tx(scid: int): int { scid / TWO_16 % TWO_24 }
  function Output(scid: int): int { scid % TWO_16 }

  lemma Unpack(block: int, tx: int, output: int)
    requires InRange(block, tx, output)
    ensures var v := Pack(block, tx, output);
      0 <= v < TWO_64 && Block(v) == block && Tx(v) == tx && Output(v) == output
  {
    var v := Pack(block, tx, output);
    assert v == TWO_16 * (block * TWO_24 + tx) + output;
    assert v / TWO_16 == block * TWO_24 + tx;
  }

  lemma {:induction false} NumeralOfDigits(n: nat)
    ensures NumeralIn(Digits(n), 10) == Some(n)
  {
    var s := Digits(n);
    if n >= 10 {
      NumeralOfDigits(n / 10);
      assert s[..|s| - 1] == Digits(n / 10);
    }
  }

  lemma DigitsFree(n: nat, c: char)
    requires !IsDigit(c)
    ensures Free(Digits(n), c)
  {
  }

  lemma {:induction false} DigitsStart(n: nat)
    ensures |Digits(n)| >= 2 ==> Digits(n)[0] != '0'
  {
    if n >= 100 {
      DigitsStart(n / 10);
    }
  }

  lemma BigIntOfDigits(n: nat)
    ensures BigIntOf(Trim(Digits(n))) == Some(n)
  {
    TrimTight(Digits(n));
    NumeralOfDigits(n);
    DigitsStart(n);
  }

  /** "block x tx x output" text. */
  function Show(block: nat, tx: nat, output: nat): string {
    Join([Digits(block), Digits(tx), Digits(output)], 'x')
  }

  /** Printed ids parse to their packed value exactly when all three parts are in range. */
  lemma ParseShow(block: nat, tx: nat, output: nat)
    ensures ParseScid(Show(block, tx, output)) ==
      if block < 0x100_0000 && tx < 0x100_0000 && output < 0x1_0000 then
        Id(block * 0x100_0000_0000 + tx * 0x1_0000 + output)
      else OutOfRange
  {
    DigitsFree(block, 'x');
    DigitsFree(tx, 'x');
    DigitsFree(output, 'x');
    SplitJoin([Digits(block), Digits(tx), Digits(output)], 'x');
    BigIntOfDigits(block);
    BigIntOfDigits(tx);
    BigIntOfDigits(output);
  }

  /** Whatever text is accepted, the id is a u64 whose fields are the three numbers written. */
  lemma ParseSound(s: string)
    requires ParseScid(s).Id?
    ensures var v, parts := ParseScid(s).scid, Split(s, 'x');
      && 0 <= v < 0x1_0000_0000_0000_0000 && |parts| == 3
      && BigIntOf(Trim(parts[0])) == Some(Block(v))
      && BigIntOf(Trim(parts[1])) == Some(Tx(v))
      && BigIntOf(Trim(parts[2])) == Some(Output(v))
  {
    var parts := Split(s, 'x');
    Unpack(BigIntOf(Trim(parts[0])).value, BigIntOf(Trim(parts[1])).value, BigIntOf(Trim(parts[2])).value);
  }

  /** White space around the three numbers does not matter. */
  lemma ParseSpaced(block: nat, tx: nat, output: nat, pre: seq<string>, post: seq<string>)
    requires |pre| == 3 && |post| == 3
    requires forall i :: 0 <= i < 3 ==> AllSpace(pre[i]) && AllSpace(post[i])
    ensures ParseScid(Join([pre[0] + Digits(block) + post[0], pre[1] + Digits(tx) + post[1], pre[2] + Digits(output) + post[2]], 'x'))
      == ParseScid(Show(block, tx, output))
  {
    var ps := [pre[0] + Digits(block) + post[0], pre[1] + Digits(tx) + post[1], pre[2] + Digits(output) + post[2]];
    SpacedNumber(pre[0], block, post[0]);
    SpacedNumber(pre[1], tx, post[1]);
    SpacedNumber(pre[2], output, post[2]);
    SplitJoin(ps, 'x');
    ParseShow(block, tx, output);
  }

  lemma SpacedNumber(pre: string, n: nat, post: string)
    requires AllSpace(pre) && AllSpace(post)
    ensures Free(pre + Digits(n) + post, 'x') && BigIntOf(Trim(pre + Digits(n) + post)) == Some(n)
  {
    DigitsFree(n, 'x');
    TrimOf(pre, Digits(n), post);
    BigIntOfDigits(n);
    TrimTight(Digits(n));
  }
}
