/** The key under which both stores file a channel monitor. */
module MonitorKey {
  import opened Common
  import opened Decimal

  /** A funding outpoint: a 32-byte transaction id and a 16-bit output index. */
  datatype Outpoint = Outpoint(txid: Bytes, index: nat)

  predicate Wellformed(o: Outpoint) {
    |o.txid| == 32 && o.index < 0x1_0000
  }

  function OutpointKey(o: Outpoint): string {
    ToHex(o.txid) + ":" + Digits(o.index)
  }

  /** `/^[0-9a-f]{64}:\d+$/` */
  predicate IsMonitorKey(s: string) {
    |s| > 65 && AllHex(s[..64]) && s[64] == ':' && AllDigits(s[65..])
  }

  /** 64 lower-case hexadecimal digits, a colon and at least one decimal digit. */
  lemma PatternIff(hex: string, digits: string)
    requires |hex| == 64
    ensures IsMonitorKey(hex + ":" + digits) <==> AllHex(hex) && AllDigits(digits) && digits != ""
  {
    var s := hex + ":" + digits;
    assert s[..64] == hex && s[65..] == digits;
  }

  lemma KeyMatchesPattern(o: Outpoint)
    requires Wellformed(o)
    ensures IsMonitorKey(OutpointKey(o))
  {
    var s := OutpointKey(o);
    assert s[..64] == ToHex(o.txid) && s[65..] == Digits(o.index);
  }

  /** Different channels never share a row or an object. */
  lemma KeyInjective(a: Outpoint, b: Outpoint)
    requires Wellformed(a) && Wellformed(b) && OutpointKey(a) == OutpointKey(b)
    ensures a == b
  {
    var s, t := OutpointKey(a), OutpointKey(b);
    assert s[..64] == ToHex(a.txid) && s[65..] == Digits(a.index);
    assert t[..64] == ToHex(b.txid) && t[65..] == Digits(b.index);
    HexInjective(a.txid, b.txid);
    DigitsInjective(a.index, b.index);
  }
}
