/**
 * The BOLT 11 data part: how the encoder builds it, how a reader of sections "Data Part" and "Tagged
 * Fields" takes it apart, and exactly which values survive the trip.
 */
module Bolt11Data {
  import opened Common
  import opened Bits
  import opened JsInt
  import opened Regroup
  import opened Bolt11Fields
  import opened Bolt11Route
  import Scid

  const TAG_PAYMENT_HASH: nat := 1
  const TAG_ROUTE_HINT: nat := 3
  const TAG_FEATURE_BITS: nat := 5
  const TAG_EXPIRY: nat := 6
  const TAG_DESCRIPTION: nat := 13
  const TAG_PAYMENT_SECRET: nat := 16
  const TAG_PAYEE: nat := 19
  const TAG_MIN_FINAL_CLTV_EXPIRY: nat := 24

  const MAX_FIELD_WORDS: nat := 1023

  /** `description` is already UTF-8. */
  datatype Params = Params(
    paymentHash: seq<nat>,
    paymentSecret: seq<nat>,
    description: seq<nat>,
    expirySecs: nat,
    minFinalCltvExpiry: nat,
    payeeNodeId: seq<nat>,
    routeHints: seq<seq<Hop>>)

  /** The byte lengths the parameter types announce: 32, 32 and 33, and 33-byte keys in the hops. */
  predicate ParamsOk(p: Params) {
    && |p.paymentHash| == 32 && Fits(p.paymentHash, BYTE)
    && |p.paymentSecret| == 32 && Fits(p.paymentSecret, BYTE)
    && |p.payeeNodeId| == 33 && Fits(p.payeeNodeId, BYTE)
    && Fits(p.description, BYTE)
    && forall i :: 0 <= i < |p.routeHints| ==> RouteOk(p.routeHints[i])
  }

  datatype Field = Field(tag: nat, data: seq<nat>)

  predicate FieldFits(f: Field) {
    |f.data| <= MAX_FIELD_WORDS
  }

  function FieldWords(f: Field): seq<nat> {
    [f.tag, |f.data| / 32, |f.data| % 32] + f.data
  }

  function Flatten(fs: seq<Field>): seq<nat> {
    if fs == [] then [] else FieldWords(fs[0]) + Flatten(fs[1..])
  }

  lemma {:induction false} FlattenJoin(fs: seq<Field>, gs: seq<Field>)
    ensures Flatten(fs + gs) == Flatten(fs) + Flatten(gs)
  {
    if fs == [] {
      assert fs + gs == gs;
    } else {
      assert (fs + gs)[1..] == fs[1..] + gs;
      FlattenJoin(fs[1..], gs);
      Associates(FieldWords(fs[0]), Flatten(fs[1..]), Flatten(gs));
    }
  }

  lemma FlattenSnoc(fs: seq<Field>, f: Field)
    ensures Flatten(fs + [f]) == Flatten(fs) + FieldWords(f)
  {
    FlattenJoin(fs, [f]);
    assert [f][1..] == [];
  }

  // ---------- The encoder ----------

  const FEATURE_WORDS: seq<nat> := [5, 0, 16, 0]

  function SevenFields(a: seq<nat>, b: seq<nat>, c: seq<nat>, d: seq<nat>, e: seq<nat>, f: seq<nat>, g: seq<nat>)
    : seq<Field>
  {
    [Field(TAG_PAYMENT_HASH, a), Field(TAG_PAYMENT_SECRET, b), Field(TAG_DESCRIPTION, c)]
    + [Field(TAG_EXPIRY, d), Field(TAG_MIN_FINAL_CLTV_EXPIRY, e), Field(TAG_PAYEE, f)]
    + [Field(TAG_FEATURE_BITS, g)]
  }

  function FixedFields(p: Params): seq<Field> {
    SevenFields(ToWords(p.paymentHash), ToWords(p.paymentSecret), ToWords(p.description),
                IntWords(IntEncoded(p.expirySecs)), IntWords(IntEncoded(p.minFinalCltvExpiry)),
                ToWords(p.payeeNodeId), FEATURE_WORDS)
  }

  function RouteField(hops: seq<Hop>): Field
  {
    Field(TAG_ROUTE_HINT, ToWords(RouteBytes(hops)))
  }

  function RouteFields(routes: seq<seq<Hop>>): seq<Field>
  {
    if routes == [] then [] else RouteFields(routes[..|routes| - 1]) + [RouteField(routes[|routes| - 1])]
  }

  /** The 35 timestamp bits: `(ts >> (i * 5)) & 0x1f` on a number already cut to 32 signed bits. */
  function TimestampWords(t: nat): seq<nat> {
    TimestampFrom(t, 7)
  }

  function TimestampFrom(t: nat, n: nat): (r: seq<nat>)
    ensures |r| == n
  {
    if n == 0 then [] else [And31(Sar(t, WORD * (n - 1)))] + TimestampFrom(t, n - 1)
  }

  lemma LengthWords(len: nat)
    requires len <= MAX_FIELD_WORDS
    ensures And31(Sar(len, WORD)) == len / 32 && And31(len) == len % 32
  {
    ShiftFive(len);
    InRange(len);
  }

  lemma {:induction false} RouteFieldsAt(routes: seq<seq<Hop>>, i: nat)
    requires i < |routes|
    ensures |RouteFields(routes)| == |routes| && RouteFields(routes)[i] == RouteField(routes[i])
  {
    RouteFieldsLength(routes);
    if i < |routes| - 1 { RouteFieldsAt(routes[..|routes| - 1], i); }
    RouteFieldsLength(routes[..|routes| - 1]);
  }

  lemma {:induction false} RouteFieldsLength(routes: seq<seq<Hop>>)
    ensures |RouteFields(routes)| == |routes|
  {
    if routes != [] { RouteFieldsLength(routes[..|routes| - 1]); }
  }

  predicate FieldsFit(fs: seq<Field>) {
    forall i :: 0 <= i < |fs| ==> FieldFits(fs[i])
  }

  lemma FieldsNext(fs: seq<Field>, i: nat)
    requires i < |fs|
    ensures Flatten(fs[..i + 1]) == Flatten(fs[..i]) + FieldWords(fs[i])
    ensures FieldsFit(fs[..i + 1]) <==> FieldsFit(fs[..i]) && FieldFits(fs[i])
    ensures FieldsFit(fs) ==> FieldFits(fs[i])
  {
    FlattenSnoc(fs[..i], fs[i]);
    assert fs[..i + 1] == fs[..i] + [fs[i]];
  }

  class WordBuffer {
    var words: seq<nat>

    constructor ()
      ensures words == []
    {
      words := [];
    }

    /** `addTaggedField`: throws, leaving the words alone, past 1023 data words. */
    method AddTaggedField(tag: nat, data: seq<nat>) returns (ok: bool)
      modifies this
      ensures ok <==> FieldFits(Field(tag, data))
      ensures words == old(words) + if ok then FieldWords(Field(tag, data)) else []
    {
      if |data| > 1023 {
        return false;
      }
      var len := |data|;
      LengthWords(len);
      words := words + [tag];
      words := words + [And31(Sar(len, WORD))];
      words := words + [And31(len)];
      words := words + data;
      ok := true;
    }

    method AddFields(fs: seq<Field>) returns (ok: bool)
      modifies this
      ensures ok == FieldsFit(fs)
      ensures ok ==> words == old(words) + Flatten(fs)
    {
      var i := 0;
      assert fs[..0] == [];
      while i < |fs|
        invariant 0 <= i <= |fs|
        invariant FieldsFit(fs[..i])
        invariant words == old(words) + Flatten(fs[..i])
      {
        ok := AddTaggedField(fs[i].tag, fs[i].data);
        FieldsNext(fs, i);
        if !ok {
          return false;
        }
        Associates(old(words), Flatten(fs[..i]), FieldWords(fs[i]));
        i := i + 1;
      }
      assert fs[..i] == fs;
      ok := true;
    }

    method AddTimestamp(timestamp: nat)
      modifies this
      ensures words == old(words) + TimestampWords(timestamp)
    {
      var n: nat := 7;
      while n > 0
        invariant words + TimestampFrom(timestamp, n) == old(words) + TimestampWords(timestamp)
      {
        var word := And31(Sar(timestamp, WORD * (n - 1)));
        Associates(words, [word], TimestampFrom(timestamp, n - 1));
        words := words + [word];
        n := n - 1;
      }
      assert words + [] == words;
    }

    method AddRoutes(routes: seq<seq<Hop>>, ghost fs: seq<Field>) returns (ok: bool)
      requires |fs| == |routes| && forall i :: 0 <= i < |fs| ==> fs[i] == RouteField(routes[i])
      modifies this
      ensures ok == FieldsFit(fs)
      ensures ok ==> words == old(words) + Flatten(fs)
    {
      var i := 0;
      assert fs[..0] == [];
      while i < |routes|
        invariant 0 <= i <= |routes|
        invariant FieldsFit(fs[..i])
        invariant words == old(words) + Flatten(fs[..i])
      {
        ok := AddRoute(routes[i], fs[i]);
        FieldsNext(fs, i);
        if !ok {
          return false;
        }
        Associates(old(words), Flatten(fs[..i]), FieldWords(fs[i]));
        i := i + 1;
      }
      assert fs[..i] == fs;
      ok := true;
    }

    method AddRoute(hops: seq<Hop>, ghost f: Field) returns (ok: bool)
      requires f == RouteField(hops)
      modifies this
      ensures ok == FieldFits(f)
      ensures ok ==> words == old(words) + FieldWords(f)
    {
      var routeWords := EncodeRouteHint(hops);
      ok := AddTaggedField(TAG_ROUTE_HINT, routeWords);
    }
  }

  datatype Built = Data(words: seq<nat>) | TooLong

  function Fields(p: Params): seq<Field> {
    FixedFields(p) + RouteFields(p.routeHints)
  }

  predicate AllFit(p: Params) {
    FieldsFit(FixedFields(p)) && FieldsFit(RouteFields(p.routeHints))
  }

  function DataWords(p: Params, timestamp: nat): seq<nat> {
    TimestampWords(timestamp) + Flatten(Fields(p))
  }

  /** What the encoder yields: its words, or the throw of an oversized field. */
  function Encoded(p: Params, timestamp: nat): Built {
    if AllFit(p) then Data(DataWords(p, timestamp)) else TooLong
  }

  /** `buildDataPart`; an oversized field throws. */
  method BuildDataPart(p: Params, timestamp: nat) returns (r: Built)
    ensures r == Encoded(p, timestamp)
  {
    var buffer := new WordBuffer();
    buffer.AddTimestamp(timestamp);
    var expiry := IntToWords(p.expirySecs);
    var cltv := IntToWords(p.minFinalCltvExpiry);
    var ok := buffer.AddFields(SevenFields(ToWords(p.paymentHash), ToWords(p.paymentSecret), ToWords(p.description),
                                           expiry, cltv, ToWords(p.payeeNodeId), FEATURE_WORDS));
    if !ok {
      return TooLong;
    }
    RouteFieldsLength(p.routeHints);
    forall i | 0 <= i < |p.routeHints| ensures RouteFields(p.routeHints)[i] == RouteField(p.routeHints[i]) {
      RouteFieldsAt(p.routeHints, i);
    }
    ok := buffer.AddRoutes(p.routeHints, RouteFields(p.routeHints));
    if !ok {
      return TooLong;
    }
    FlattenJoin(FixedFields(p), RouteFields(p.routeHints));
    Associates(TimestampWords(timestamp), Flatten(FixedFields(p)), Flatten(RouteFields(p.routeHints)));
    assert [] + TimestampWords(timestamp) == TimestampWords(timestamp);
    r := Data(buffer.words);
  }

  lemma SevenTags(a: seq<nat>, b: seq<nat>, c: seq<nat>, d: seq<nat>, e: seq<nat>, f: seq<nat>, g: seq<nat>)
    ensures var fs := SevenFields(a, b, c, d, e, f, g);
      && |fs| == 7 && fs[0].tag == 1 && fs[1].tag == 16 && fs[2].tag == 13 && fs[3].tag == 6
      && fs[4].tag == 24 && fs[5].tag == 19 && fs[6].tag == 5
  {
  }

  /** The fields come in the source's order: p, s, d, x, c, n, feature bits, then one r for each route. */
  lemma FieldOrder(p: Params)
    ensures var fs := FixedFields(p);
      && Fields(p) == fs + RouteFields(p.routeHints)
      && |fs| == 7 && fs[0].tag == 1 && fs[1].tag == 16 && fs[2].tag == 13 && fs[3].tag == 6
      && fs[4].tag == 24 && fs[5].tag == 19 && fs[6].tag == 5
    ensures |RouteFields(p.routeHints)| == |p.routeHints|
    ensures forall i :: 0 <= i < |p.routeHints| ==> RouteFields(p.routeHints)[i].tag == 3
  {
    SevenTags(ToWords(p.paymentHash), ToWords(p.paymentSecret), ToWords(p.description),
              IntWords(IntEncoded(p.expirySecs)), IntWords(IntEncoded(p.minFinalCltvExpiry)),
              ToWords(p.payeeNodeId), FEATURE_WORDS);
    RouteTags(p.routeHints);
  }

  lemma RouteTags(routes: seq<seq<Hop>>)
    ensures |RouteFields(routes)| == |routes|
    ensures forall i :: 0 <= i < |routes| ==> RouteFields(routes)[i].tag == 3
  {
    RouteFieldsLength(routes);
    forall i | 0 <= i < |routes| ensures RouteFields(routes)[i].tag == 3 { RouteFieldsAt(routes, i); }
  }

  // ---------- When it throws ----------

  function Pow32(k: nat): nat {
    if k == 0 then 1 else 32 * Pow32(k - 1)
  }

  lemma {:induction false} IntWordsShort(n: nat, k: nat)
    requires k > 0 && n < Pow32(k)
    ensures |IntWords(n)| <= k
  {
    if n >= 32 {
      assert Pow32(1) == 32;
      IntWordsShort(n / 32, k - 1);
    }
  }

  lemma IntFieldFits(tag: nat, n: nat)
    ensures FieldFits(Field(tag, IntWords(IntEncoded(n))))
  {
    assert Pow32(7) == 0x8_0000_0000 by { assert Pow32(3) == 0x8000; assert Pow32(5) == 0x200_0000; }
    IntWordsShort(IntEncoded(n), 7);
  }

  lemma BytesFieldFits(tag: nat, bytes: seq<nat>)
    ensures FieldFits(Field(tag, ToWords(bytes))) <==> |bytes| <= 639
  {
    ToWordsBits(bytes);
  }

  lemma RouteFieldFits(hops: seq<Hop>)
    requires RouteOk(hops)
    ensures FieldFits(RouteField(hops)) <==> |hops| <= 12
  {
    RouteLength(hops);
    BytesFieldFits(TAG_ROUTE_HINT, RouteBytes(hops));
  }

  lemma RoutesFitIff(routes: seq<seq<Hop>>)
    requires forall i :: 0 <= i < |routes| ==> RouteOk(routes[i])
    ensures FieldsFit(RouteFields(routes)) <==> forall i :: 0 <= i < |routes| ==> |routes[i]| <= 12
  {
    var fs := RouteFields(routes);
    RouteFieldsLength(routes);
    forall i | 0 <= i < |routes| ensures FieldFits(fs[i]) <==> |routes[i]| <= 12 {
      RouteFieldsAt(routes, i);
      RouteFieldFits(routes[i]);
    }
  }

  lemma FixedFitIff(p: Params)
    requires ParamsOk(p)
    ensures FieldsFit(FixedFields(p)) <==> |p.description| <= 639
  {
    BytesFieldFits(TAG_PAYMENT_HASH, p.paymentHash);
    BytesFieldFits(TAG_PAYMENT_SECRET, p.paymentSecret);
    BytesFieldFits(TAG_DESCRIPTION, p.description);
    IntFieldFits(TAG_EXPIRY, p.expirySecs);
    IntFieldFits(TAG_MIN_FINAL_CLTV_EXPIRY, p.minFinalCltvExpiry);
    BytesFieldFits(TAG_PAYEE, p.payeeNodeId);
    var fs := FixedFields(p);
    assert fs[2] == Field(TAG_DESCRIPTION, ToWords(p.description));
  }

  predicate WithinLimits(p: Params) {
    |p.description| <= 639 && forall i :: 0 <= i < |p.routeHints| ==> |p.routeHints[i]| <= 12
  }

  /** The encoder throws exactly for a description over 639 bytes or a route of more than 12 hops. */
  lemma ThrowsIff(p: Params, timestamp: nat)
    requires ParamsOk(p)
    ensures Encoded(p, timestamp) == TooLong <==> !WithinLimits(p)
  {
    FixedFitIff(p);
    RoutesFitIff(p.routeHints);
  }

  // ---------- A reader ----------

  /** Splits words into tagged fields, as any reader does before it looks at the tags. */
  function ReadFields(ws: seq<nat>): Option<seq<Field>> {
    if ws == [] then Some([])
    else if |ws| < 3 || |ws| < 3 + ws[1] * 32 + ws[2] then None
    else
      var len := ws[1] * 32 + ws[2];
      match ReadFields(ws[3 + len..])
      case None => None
      case Some(rest) => Some([Field(ws[0], ws[3..3 + len])] + rest)
  }

  lemma {:induction false} FieldsRoundTrip(fs: seq<Field>)
    ensures ReadFields(Flatten(fs)) == Some(fs)
  {
    if fs != [] {
      var f, rest := fs[0], Flatten(fs[1..]);
      var ws := Flatten(fs);
      FieldsRoundTrip(fs[1..]);
      assert ws == FieldWords(f) + rest;
      assert ws[3..3 + |f.data|] == f.data && ws[3 + |f.data|..] == rest;
      assert fs == [f] + fs[1..];
    }
  }

  /** What a reader collects. Absent fields stay `None`; several `r` fields are several routes. */
  datatype Invoice = Invoice(
    timestamp: nat,
    paymentHash: Option<seq<nat>>,
    paymentSecret: Option<seq<nat>>,
    description: Option<seq<nat>>,
    expiry: Option<nat>,
    minFinalCltvExpiry: Option<nat>,
    payee: Option<seq<nat>>,
    features: Option<nat>,
    routes: seq<seq<Hop>>)

  /**
   * One field by its tag in section "Tagged Fields": p 1, s 16, d 13, x 6, c 24, n 19, feature bits 5, r 3.
   * Unknown tags, and p, s and n fields of the wrong length, are skipped.
   */
  function Take(v: Invoice, f: Field): Invoice {
    if f.tag == 1 && |f.data| == 52 then v.(paymentHash := Some(ToBytes(f.data)))
    else if f.tag == 16 && |f.data| == 52 then v.(paymentSecret := Some(ToBytes(f.data)))
    else if f.tag == 13 then v.(description := Some(ToBytes(f.data)))
    else if f.tag == 6 then v.(expiry := Some(WordsNumber(f.data)))
    else if f.tag == 24 then v.(minFinalCltvExpiry := Some(WordsNumber(f.data)))
    else if f.tag == 19 && |f.data| == 53 then v.(payee := Some(ToBytes(f.data)))
    else if f.tag == 5 then v.(features := Some(WordsNumber(f.data)))
    else if f.tag == 3 then v.(routes := v.routes + [ReadRoute(ToBytes(f.data))])
    else v
  }

  function TakeAll(v: Invoice, fs: seq<Field>): Invoice {
    if fs == [] then v else Take(TakeAll(v, fs[..|fs| - 1]), fs[|fs| - 1])
  }

  function Blank(timestamp: nat): Invoice {
    Invoice(timestamp, None, None, None, None, None, None, None, [])
  }

  /** Every word has 5 bits: anything else is no bech32 text. */
  function ReadData(ws: seq<nat>): Option<Invoice> {
    if |ws| < 7 || !Fits(ws, WORD) then None
    else
      match ReadFields(ws[7..])
      case None => None
      case Some(fs) => Some(TakeAll(Blank(WordsNumber(ws[..7])), fs))
  }

  // ---------- The timestamp ----------

  lemma {:induction false} TimestampBits(t: nat, n: nat)
    ensures Fits(TimestampFrom(t, n), WORD)
    ensures Spread(TimestampFrom(t, n), WORD) == BitsOf(ToInt32(t), WORD * n)
  {
    if n > 0 {
      var k := WORD * (n - 1);
      TimestampBits(t, n - 1);
      Masked31(Sar(t, k));
      SpreadPrepend(And31(Sar(t, k)), TimestampFrom(t, n - 1), WORD);
      BitsSplit(ToInt32(t), WORD, k);
      WordSizes();
    }
  }

  const TWO_35: int := 0x8_0000_0000

  lemma Pow2Of35()
    ensures Pow2(WORD * 7) == TWO_35
  {
    Pow2Of32();
    PowSum(32, 3);
    assert Pow2(3) == 8;
  }

  /** The timestamp a reader sees: 35 bits of a number that was cut to 32 signed bits first. */
  lemma TimestampRead(t: nat)
    ensures WordsNumber(TimestampWords(t)) == ToInt32(t) % TWO_35
  {
    TimestampBits(t, 7);
    WordsNumberBits(TimestampWords(t));
    Pow2Of35();
    var q := KeptPlus(ToInt32(t), WORD * 7, TWO_35);
    Modulo35(WordsNumber(TimestampWords(t)), q, ToInt32(t));
  }

  lemma Modulo35(r: int, q: int, v: int)
    requires 0 <= r < TWO_35 && r + TWO_35 * q == v
    ensures r == v % TWO_35
  {
  }

  lemma CutExact(t: nat)
    ensures ToInt32(t) % TWO_35 == t <==> t < TWO_31 || TWO_35 - TWO_31 <= t < TWO_35
  {
  }

  /**
   * The timestamp survives exactly below 2^31, and in the last 2^31 seconds of the 35-bit range, where
   * the sign extension happens to rebuild the bits the 32-bit operators dropped.
   */
  lemma TimestampExact(t: nat)
    ensures WordsNumber(TimestampWords(t)) == t <==> t < TWO_31 || TWO_35 - TWO_31 <= t < TWO_35
  {
    TimestampRead(t);
    CutExact(t);
  }

  // ---------- The data part, there and back ----------

  /** What a reader gets from the encoder's output. */
  function Expected(p: Params, timestamp: nat): Invoice {
    Invoice(WordsNumber(TimestampWords(timestamp)), Some(p.paymentHash), Some(p.paymentSecret), Some(p.description),
            Some(IntEncoded(p.expirySecs)), Some(IntEncoded(p.minFinalCltvExpiry)), Some(p.payeeNodeId),
            Some(FEATURES), CarriedRoutes(p.routeHints))
  }

  /** Bits 9, 15 and 17: var_onion_optin, payment_secret, basic_mpp, all optional. */
  const FEATURES: nat := 164352

  lemma NumberSnoc(ws: seq<nat>, w: nat)
    ensures WordsNumber(ws + [w]) == 32 * WordsNumber(ws) + w
  {
    assert (ws + [w])[..|ws + [w]| - 1] == ws;
  }

  lemma FeaturesRead()
    ensures WordsNumber(FEATURE_WORDS) == FEATURES == 0x200 + 0x8000 + 0x2_0000
  {
    NumberSnoc([], 5);
    NumberSnoc([5], 0);
    NumberSnoc([5, 0], 16);
    NumberSnoc([5, 0, 16], 0);
    assert [] + [5] == [5] && [5] + [0] == [5, 0] && [5, 0] + [16] == [5, 0, 16];
    assert [5, 0, 16] + [0] == FEATURE_WORDS;
  }

  function CarriedRoutes(routes: seq<seq<Hop>>): seq<seq<Hop>> {
    if routes == [] then [] else CarriedRoutes(routes[..|routes| - 1]) + [CarriedRoute(routes[|routes| - 1])]
  }

  lemma BytesField(bytes: seq<nat>)
    requires Fits(bytes, BYTE)
    ensures ToBytes(ToWords(bytes)) == bytes && |ToWords(bytes)| == (8 * |bytes| + 4) / 5
  {
    ToBytesToWords(bytes);
    ToWordsBits(bytes);
  }

  lemma TakeSnoc(v: Invoice, fs: seq<Field>, f: Field)
    ensures TakeAll(v, fs + [f]) == Take(TakeAll(v, fs), f)
  {
    assert (fs + [f])[..|fs + [f]| - 1] == fs;
  }

  lemma {:induction false} TakeJoin(v: Invoice, fs: seq<Field>, gs: seq<Field>)
    ensures TakeAll(v, fs + gs) == TakeAll(TakeAll(v, fs), gs)
  {
    if gs == [] {
      assert fs + gs == fs;
    } else {
      var front, last := gs[..|gs| - 1], gs[|gs| - 1];
      assert fs + gs == (fs + front) + [last];
      TakeSnoc(v, fs + front, last);
      TakeJoin(v, fs, front);
    }
  }

  lemma TakeOne(v: Invoice, f: Field)
    ensures TakeAll(v, [f]) == Take(v, f)
  {
    TakeSnoc(v, [], f);
    assert [] + [f] == [f];
  }

  lemma TakeThree(v: Invoice, f: Field, g: Field, h: Field)
    ensures TakeAll(v, [f, g, h]) == Take(Take(Take(v, f), g), h)
  {
    TakeOne(v, f);
    TakeSnoc(v, [f], g);
    TakeSnoc(v, [f, g], h);
    assert [f] + [g] == [f, g] && [f, g] + [h] == [f, g, h];
  }

  lemma TakeHashes(v: Invoice, a: seq<nat>, b: seq<nat>, c: seq<nat>)
    requires |a| == 52 && |b| == 52
    ensures TakeAll(v, [Field(TAG_PAYMENT_HASH, a), Field(TAG_PAYMENT_SECRET, b), Field(TAG_DESCRIPTION, c)])
      == v.(paymentHash := Some(ToBytes(a)), paymentSecret := Some(ToBytes(b)), description := Some(ToBytes(c)))
  {
    TakeThree(v, Field(TAG_PAYMENT_HASH, a), Field(TAG_PAYMENT_SECRET, b), Field(TAG_DESCRIPTION, c));
  }

  lemma TakeNumbers(v: Invoice, d: seq<nat>, e: seq<nat>, f: seq<nat>)
    requires |f| == 53
    ensures TakeAll(v, [Field(TAG_EXPIRY, d), Field(TAG_MIN_FINAL_CLTV_EXPIRY, e), Field(TAG_PAYEE, f)])
      == v.(expiry := Some(WordsNumber(d)), minFinalCltvExpiry := Some(WordsNumber(e)), payee := Some(ToBytes(f)))
  {
    TakeThree(v, Field(TAG_EXPIRY, d), Field(TAG_MIN_FINAL_CLTV_EXPIRY, e), Field(TAG_PAYEE, f));
  }

  lemma TakeSeven(v: Invoice, hashes: seq<Field>, numbers: seq<Field>, features: Field)
    ensures TakeAll(v, hashes + numbers + [features]) == Take(TakeAll(TakeAll(v, hashes), numbers), features)
  {
    TakeSnoc(v, hashes + numbers, features);
    TakeJoin(v, hashes, numbers);
  }

  /** Each of the seven fields sets its own slot. */
  lemma TakeEach(v: Invoice, a: seq<nat>, b: seq<nat>, c: seq<nat>, d: seq<nat>, e: seq<nat>, f: seq<nat>, g: seq<nat>)
    requires |a| == 52 && |b| == 52 && |f| == 53
    ensures TakeAll(v, SevenFields(a, b, c, d, e, f, g)) == Invoice(v.timestamp, Some(ToBytes(a)), Some(ToBytes(b)), Some(ToBytes(c)), Some(WordsNumber(d)),
                 Some(WordsNumber(e)), Some(ToBytes(f)), Some(WordsNumber(g)), v.routes)
  {
    var hashes := [Field(TAG_PAYMENT_HASH, a), Field(TAG_PAYMENT_SECRET, b), Field(TAG_DESCRIPTION, c)];
    var numbers := [Field(TAG_EXPIRY, d), Field(TAG_MIN_FINAL_CLTV_EXPIRY, e), Field(TAG_PAYEE, f)];
    var features := Field(TAG_FEATURE_BITS, g);
    TakeSeven(v, hashes, numbers, features);
    TakeHashes(v, a, b, c);
    var v1 := TakeAll(v, hashes);
    TakeNumbers(v1, d, e, f);
    var v2 := TakeAll(v1, numbers);
    TakeFeatures(v2, g);
  }

  lemma TakeFeatures(v: Invoice, g: seq<nat>)
    ensures Take(v, Field(TAG_FEATURE_BITS, g)) == v.(features := Some(WordsNumber(g)))
  {
  }

  lemma TakeFixed(v: Invoice, p: Params)
    requires ParamsOk(p)
    ensures TakeAll(v, FixedFields(p)) ==
      Invoice(v.timestamp, Some(p.paymentHash), Some(p.paymentSecret), Some(p.description),
              Some(IntEncoded(p.expirySecs)), Some(IntEncoded(p.minFinalCltvExpiry)), Some(p.payeeNodeId),
              Some(FEATURES), v.routes)
  {
    BytesField(p.paymentHash);
    BytesField(p.paymentSecret);
    BytesField(p.description);
    BytesField(p.payeeNodeId);
    NumberOfIntWords(IntEncoded(p.expirySecs));
    NumberOfIntWords(IntEncoded(p.minFinalCltvExpiry));
    FeaturesRead();
    TakeEach(v, ToWords(p.paymentHash), ToWords(p.paymentSecret), ToWords(p.description),
             IntWords(IntEncoded(p.expirySecs)), IntWords(IntEncoded(p.minFinalCltvExpiry)),
             ToWords(p.payeeNodeId), FEATURE_WORDS);
  }

  lemma TakeRoute(v: Invoice, hops: seq<Hop>)
    requires RouteOk(hops)
    ensures Take(v, RouteField(hops)) == v.(routes := v.routes + [CarriedRoute(hops)])
  {
    RouteLength(hops);
    BytesField(RouteBytes(hops));
    RouteRoundTrip(hops);
    TakeRouteData(v, ToWords(RouteBytes(hops)), RouteBytes(hops), CarriedRoute(hops));
  }

  lemma TakeRouteData(v: Invoice, data: seq<nat>, bytes: seq<nat>, hops: seq<Hop>)
    requires ToBytes(data) == bytes && ReadRoute(bytes) == hops
    ensures Take(v, Field(TAG_ROUTE_HINT, data)) == v.(routes := v.routes + [hops])
  {
  }

  lemma {:induction false} TakeRoutes(v: Invoice, routes: seq<seq<Hop>>)
    requires forall i :: 0 <= i < |routes| ==> RouteOk(routes[i])
    ensures TakeAll(v, RouteFields(routes)) == v.(routes := v.routes + CarriedRoutes(routes))
  {
    if routes != [] {
      var front, last := routes[..|routes| - 1], routes[|routes| - 1];
      TakeRoutes(v, front);
      TakeSnoc(v, RouteFields(front), RouteField(last));
      TakeRoute(v.(routes := v.routes + CarriedRoutes(front)), last);
      Associates(v.routes, CarriedRoutes(front), [CarriedRoute(last)]);
    }
  }

  /** A field whose tag, length and data are 5-bit words. */
  predicate InWords(f: Field) {
    f.tag < 32 && FieldFits(f) && Fits(f.data, WORD)
  }

  predicate AllInWords(fs: seq<Field>) {
    forall i :: 0 <= i < |fs| ==> InWords(fs[i])
  }

  lemma {:induction false} FlattenFits(fs: seq<Field>)
    requires AllInWords(fs)
    ensures Fits(Flatten(fs), WORD)
  {
    if fs != [] {
      WordSizes();
      assert InWords(fs[0]);
      assert Fits(FieldWords(fs[0]), WORD);
      FlattenFits(fs[1..]);
    }
  }

  lemma SevenInWords(a: seq<nat>, b: seq<nat>, c: seq<nat>, d: seq<nat>, e: seq<nat>, f: seq<nat>, g: seq<nat>)
    requires FieldsFit(SevenFields(a, b, c, d, e, f, g))
    requires Fits(a, WORD) && Fits(b, WORD) && Fits(c, WORD) && Fits(d, WORD)
    requires Fits(e, WORD) && Fits(f, WORD) && Fits(g, WORD)
    ensures AllInWords(SevenFields(a, b, c, d, e, f, g))
  {
  }

  lemma FixedInWords(p: Params)
    requires FieldsFit(FixedFields(p))
    ensures AllInWords(FixedFields(p))
  {
    ToWordsBits(p.paymentHash);
    ToWordsBits(p.paymentSecret);
    ToWordsBits(p.description);
    ToWordsBits(p.payeeNodeId);
    FeatureWordsFit();
    SevenInWords(ToWords(p.paymentHash), ToWords(p.paymentSecret), ToWords(p.description),
                 IntWords(IntEncoded(p.expirySecs)), IntWords(IntEncoded(p.minFinalCltvExpiry)),
                 ToWords(p.payeeNodeId), FEATURE_WORDS);
  }

  lemma FeatureWordsFit()
    ensures Fits(FEATURE_WORDS, WORD)
  {
    WordSizes();
  }

  lemma RoutesInWords(routes: seq<seq<Hop>>)
    requires FieldsFit(RouteFields(routes))
    ensures AllInWords(RouteFields(routes))
  {
    var fs := RouteFields(routes);
    RouteFieldsLength(routes);
    forall i | 0 <= i < |fs| ensures InWords(fs[i]) {
      RouteFieldsAt(routes, i);
      ToWordsBits(RouteBytes(routes[i]));
    }
  }

  /** What the encoder yields are 5-bit words. */
  lemma DataFits(p: Params, timestamp: nat)
    requires AllFit(p)
    ensures Fits(DataWords(p, timestamp), WORD)
  {
    TimestampBits(timestamp, 7);
    FixedInWords(p);
    RoutesInWords(p.routeHints);
    FlattenFits(Fields(p));
  }

  /** A reader of the encoder's result; after a throw there is nothing to read. */
  function ReadBuilt(b: Built): Option<Invoice> {
    if b.Data? then ReadData(b.words) else None
  }

  /**
   * A reader of the encoder's result gets every field back, bytes as they were and numbers as 32-bit
   * code encodes them; and gets nothing exactly when the encoder throws.
   */
  lemma DataRoundTrip(p: Params, timestamp: nat)
    requires ParamsOk(p)
    ensures ReadBuilt(Encoded(p, timestamp)) == if WithinLimits(p) then Some(Expected(p, timestamp)) else None
  {
    ThrowsIff(p, timestamp);
    if AllFit(p) { WordsRoundTrip(p, timestamp); }
  }

  lemma WordsRoundTrip(p: Params, timestamp: nat)
    requires ParamsOk(p) && AllFit(p)
    ensures ReadData(DataWords(p, timestamp)) == Some(Expected(p, timestamp))
  {
    DataFits(p, timestamp);
    var ws, fs := DataWords(p, timestamp), Fields(p);
    assert ws[..7] == TimestampWords(timestamp) && ws[7..] == Flatten(fs);
    FieldsRoundTrip(fs);
    var blank := Blank(WordsNumber(TimestampWords(timestamp)));
    TakeJoin(blank, FixedFields(p), RouteFields(p.routeHints));
    TakeFixed(blank, p);
    TakeRoutes(TakeAll(blank, FixedFields(p)), p.routeHints);
    assert [] + CarriedRoutes(p.routeHints) == CarriedRoutes(p.routeHints);
  }

  /** The invoice the parameters describe. */
  function Meant(p: Params, timestamp: nat): Invoice {
    Invoice(timestamp, Some(p.paymentHash), Some(p.paymentSecret), Some(p.description), Some(p.expirySecs),
            Some(p.minFinalCltvExpiry), Some(p.payeeNodeId), Some(0x200 + 0x8000 + 0x2_0000), p.routeHints)
  }

  predicate TimestampInRange(t: nat) {
    t < TWO_31 || TWO_35 - TWO_31 <= t < TWO_35
  }

  predicate RouteInRange(hops: seq<Hop>) {
    hops == [] || (RouteInRange(hops[..|hops| - 1]) && HopInRange(hops[|hops| - 1]))
  }

  lemma {:induction false} CarriedRouteIff(hops: seq<Hop>)
    ensures |CarriedRoute(hops)| == |hops|
    ensures CarriedRoute(hops) == hops <==> RouteInRange(hops)
  {
    if hops != [] {
      var front, last := hops[..|hops| - 1], hops[|hops| - 1];
      CarriedRouteIff(front);
      CarriedIff(last);
      SnocEqual(CarriedRoute(front), Carried(last), front, last);
      assert hops == front + [last];
    }
  }

  lemma SnocEqual<T>(a: seq<T>, x: T, b: seq<T>, y: T)
    requires |a| == |b|
    ensures a + [x] == b + [y] <==> a == b && x == y
  {
    if a + [x] == b + [y] {
      assert (a + [x])[..|a|] == a && (b + [y])[..|b|] == b;
      assert (a + [x])[|a|] == x && (b + [y])[|b|] == y;
    }
  }

  lemma {:induction false} CarriedRoutesIff(routes: seq<seq<Hop>>)
    ensures |CarriedRoutes(routes)| == |routes|
    ensures CarriedRoutes(routes) == routes <==>
      forall i :: 0 <= i < |routes| ==> RouteInRange(routes[i])
  {
    if routes != [] {
      var front, last := routes[..|routes| - 1], routes[|routes| - 1];
      CarriedRoutesIff(front);
      CarriedRouteIff(last);
      SnocEqual(CarriedRoutes(front), CarriedRoute(last), front, last);
      assert routes == front + [last];
    }
  }

  /** Exactly when there is an invoice and it says what was asked for. */
  lemma RoundTripIff(p: Params, timestamp: nat)
    requires ParamsOk(p)
    ensures ReadBuilt(Encoded(p, timestamp)) == Some(Meant(p, timestamp)) <==>
      && |p.description| <= 639
      && (forall i :: 0 <= i < |p.routeHints| ==> |p.routeHints[i]| <= 12 && RouteInRange(p.routeHints[i]))
      && TimestampInRange(timestamp)
      && p.expirySecs < TWO_31 && p.minFinalCltvExpiry < TWO_31
  {
    DataRoundTrip(p, timestamp);
    if WithinLimits(p) { ExpectedIsMeant(p, timestamp); }
  }

  lemma ExpectedIsMeant(p: Params, timestamp: nat)
    ensures Expected(p, timestamp) == Meant(p, timestamp) <==>
      && TimestampInRange(timestamp)
      && p.expirySecs < TWO_31 && p.minFinalCltvExpiry < TWO_31
      && forall i :: 0 <= i < |p.routeHints| ==> RouteInRange(p.routeHints[i])
  {
    TimestampExact(timestamp);
    IntExact(p.expirySecs);
    IntExact(p.minFinalCltvExpiry);
    CarriedRoutesIff(p.routeHints);
  }

  // ---------- With the signature ----------

  const SIGNATURE_BYTES: nat := 65
  const SIGNATURE_WORDS: nat := 104

  /** The last 104 words are the signature and recovery flag, the rest is the data part. */
  function ReadSigned(ws: seq<nat>): Option<(Invoice, seq<nat>)> {
    if |ws| < SIGNATURE_WORDS || !Fits(ws, WORD) then None
    else
      var n := |ws| - SIGNATURE_WORDS;
      match ReadData(ws[..n])
      case None => None
      case Some(v) => Some((v, ToBytes(ws[n..])))
  }

  /** A reader tells the signature from the fields and gets both. */
  lemma SignedRoundTrip(p: Params, timestamp: nat, signature: seq<nat>)
    requires ParamsOk(p) && Encoded(p, timestamp).Data?
    requires |signature| == SIGNATURE_BYTES && Fits(signature, BYTE)
    ensures ReadSigned(Encoded(p, timestamp).words + ToWords(signature)) == Some((Expected(p, timestamp), signature))
  {
    WordsRoundTrip(p, timestamp);
    DataFits(p, timestamp);
    BytesField(signature);
    ToWordsBits(signature);
    SignedWords(DataWords(p, timestamp), ToWords(signature), Expected(p, timestamp), signature);
  }

  lemma SignedWords(data: seq<nat>, sig: seq<nat>, v: Invoice, signature: seq<nat>)
    requires Fits(data, WORD) && Fits(sig, WORD) && |sig| == SIGNATURE_WORDS
    requires ReadData(data) == Some(v) && ToBytes(sig) == signature
    ensures ReadSigned(data + sig) == Some((v, signature))
  {
    var ws := data + sig;
    assert ws[..|data|] == data && ws[|data|..] == sig;
  }

  lemma {:induction false} CarriedRoutesAt(routes: seq<seq<Hop>>, i: nat)
    requires i < |routes|
    ensures |CarriedRoutes(routes)| == |routes| && CarriedRoutes(routes)[i] == CarriedRoute(routes[i])
  {
    CarriedRoutesIff(routes);
    CarriedRoutesIff(routes[..|routes| - 1]);
    if i < |routes| - 1 { CarriedRoutesAt(routes[..|routes| - 1], i); }
  }

  lemma {:induction false} CarriedRouteAt(hops: seq<Hop>, j: nat)
    requires j < |hops|
    ensures |CarriedRoute(hops)| == |hops| && CarriedRoute(hops)[j] == Carried(hops[j])
  {
    CarriedRouteIff(hops);
    CarriedRouteIff(hops[..|hops| - 1]);
    if j < |hops| - 1 { CarriedRouteAt(hops[..|hops| - 1], j); }
  }

  /** The three numbers of a channel id are those written in the text. */
  predicate SaysScid(text: string, v: int) {
    var parts := Scid.JsString.Split(text, 'x');
    && |parts| == 3
    && Scid.BigIntOf(Scid.JsString.Trim(parts[0])) == Some(Scid.Block(v))
    && Scid.BigIntOf(Scid.JsString.Trim(parts[1])) == Some(Scid.Tx(v))
    && Scid.BigIntOf(Scid.JsString.Trim(parts[2])) == Some(Scid.Output(v))
  }

  /** A hop's channel id, taken from the LSP's text, is in the reader's invoice as the three numbers written there. */
  lemma ScidThroughInvoice(text: string, p: Params, timestamp: nat, i: nat, j: nat)
    requires ParamsOk(p) && Encoded(p, timestamp).Data?
    requires i < |p.routeHints| && j < |p.routeHints[i]|
    requires Scid.ParseScid(text).Id? && p.routeHints[i][j].scid == Scid.ParseScid(text).scid
    ensures var v := ReadBuilt(Encoded(p, timestamp));
      && v.Some? && |v.value.routes| == |p.routeHints| && |v.value.routes[i]| == |p.routeHints[i]|
      && SaysScid(text, v.value.routes[i][j].scid)
  {
    Scid.ParseSound(text);
    WordsRoundTrip(p, timestamp);
    CarriedRoutesAt(p.routeHints, i);
    CarriedRouteAt(p.routeHints[i], j);
    ScidCarried(p.routeHints[i][j]);
  }

  lemma ScidCarried(h: Hop)
    requires 0 <= h.scid < TWO_64
    ensures Carried(h).scid == h.scid
  {
  }
}
