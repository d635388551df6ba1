/**
 * Payment input of `payment-input.ts`, and the payment URI `bip321.ts` builds and reads.
 * The invoice, offer and name parsers of the Lightning library are not modelled: `Bolt11(text)`
 * stands for "text goes to the invoice parser", and so on. `decodeURIComponent` is a parameter.
 */
module PaymentUri {
  import opened Common
  import opened Decimal
  import opened JsString
  import opened Bip321

  datatype Reason = EmptyUri | MalformedUri | NoPaymentMethod | WrongNetwork | Unrecognized

  datatype Payment =
    | Bolt11(text: string)
    | Bolt12(text: string)
    | Name(text: string)
    | OnChain(address: string, amountSats: Option<nat>)
    | Rejected(why: Reason)

  /** None: the function throws. */
  type Decoder = string -> Option<string>

  // ---------- Addresses ----------

  predicate IsLetter(c: char) { 'a' <= c <= 'z' || 'A' <= c <= 'Z' }

  /** `/^bc1[a-z0-9]{25,87}$/` */
  predicate Bech32(s: string) {
    28 <= |s| <= 90 && StartsWith(s, "bc1")
    && forall i :: 3 <= i < |s| ==> IsDigit(s[i]) || 'a' <= s[i] <= 'z'
  }

  /** `/^[13][a-km-zA-HJ-NP-Z1-9]{25,34}$/` */
  predicate Legacy(s: string) {
    26 <= |s| <= 35 && (s[0] == '1' || s[0] == '3')
    && forall i :: 1 <= i < |s| ==> (IsDigit(s[i]) || IsLetter(s[i])) && s[i] !in "0lIO"
  }

  predicate Mainnet(address: string) {
    Bech32(ToLower(address)) || Legacy(address)
  }

  // ---------- Classification ----------

  predicate IsHost(c: char) { IsDigit(c) || IsLetter(c) || c == '.' || c == '-' }

  predicate AllHost(s: string) {
    forall i :: 0 <= i < |s| ==> IsHost(s[i])
  }

  predicate AllLetters(s: string) {
    forall i :: 0 <= i < |s| ==> IsLetter(s[i])
  }

  /** The optional bitcoin sign before a name is dropped. */
  function WithoutSign(s: string): string {
    if s != "" && s[0] as int == 0x20bf then s[1..] else s
  }

  /** `/^[\u20bf]?[a-z0-9._-]+@[a-z0-9.-]+\.[a-z]{2,}$/i` */
  predicate IsName(s: string) {
    var t := WithoutSign(s);
    var at := IndexOf(t, '@');
    0 < at < |t|
    && (forall i :: 0 <= i < at ==> IsHost(t[i]) || t[i] == '_')
    && exists dot :: at + 2 <= dot < |t| - 2 && t[dot] == '.' && AllHost(t[at + 1..dot]) && AllLetters(t[dot + 1..])
  }

  /** `classifyPaymentInput`; every `ln(bc|tb|tbs|bcrt)` begins with `lnbc` or `lntb`. */
  function Classify(raw: string, decode: Decoder): Payment
    decreases |raw|
  {
    TrimShorter(raw);
    var input := Trim(raw);
    var lower := ToLower(input);
    if StartsWith(lower, "bitcoin:") then ParseBip321(input, decode)
    else if StartsWith(lower, "lightning:") then Classify(input[10..], decode)
    else if StartsWith(lower, "lnbc") || StartsWith(lower, "lntb") then Bolt11(input)
    else if StartsWith(lower, "lno1") then Bolt12(input)
    else if IsName(input) then Name(WithoutSign(input))
    else if Mainnet(input) then OnChain(input, None)
    else Rejected(Unrecognized)
  }

  lemma {:induction false} TrimStartShorter(s: string)
    ensures |TrimStart(s)| <= |s|
  {
    if s != "" && IsSpace(s[0]) { TrimStartShorter(s[1..]); }
  }

  lemma {:induction false} TrimEndShorter(s: string)
    ensures |TrimEnd(s)| <= |s|
  {
    if s != "" && IsSpace(s[|s| - 1]) { TrimEndShorter(s[..|s| - 1]); }
  }

  lemma TrimShorter(s: string)
    ensures |Trim(s)| <= |s|
  {
    TrimStartShorter(s);
    TrimEndShorter(TrimStart(s));
  }

  // ---------- The query ----------

  datatype Query = Query(lno: Option<string>, lightning: Option<string>, amount: Option<string>)

  /** The decoded key in lower case, and the decoded value; None when decoding throws. */
  function ReadPair(pair: string, decode: Decoder): Option<(string, string)> {
    var eq := IndexOf(pair, '=');
    var key := decode(pair[..eq]);
    var value := decode(if eq == |pair| then "" else pair[eq + 1..]);
    if key.Some? && value.Some? then Some((ToLower(key.value), value.value)) else None
  }

  predicate Malformed(pair: string, decode: Decoder) {
    pair != "" && ReadPair(pair, decode).None?
  }

  /** The value of the last readable pair with this key. */
  function LastValue(pairs: seq<string>, key: string, decode: Decoder): Option<string> {
    if pairs == [] then None
    else
      var last := pairs[|pairs| - 1];
      var r := ReadPair(last, decode);
      if last != "" && r.Some? && r.value.0 == key then Some(r.value.1)
      else LastValue(pairs[..|pairs| - 1], key, decode)
  }

  /** A malformed pair anywhere spoils the query; otherwise the last pair of each key counts. */
  function ReadQuery(pairs: seq<string>, decode: Decoder): Option<Query> {
    if exists p :: p in pairs && Malformed(p, decode) then None
    else
      Some(Query(LastValue(pairs, "lno", decode), LastValue(pairs, "lightning", decode), LastValue(pairs, "amount", decode)))
  }

  /** The loop of `parseBip321` over the pairs. */
  method ParseQuery(pairs: seq<string>, decode: Decoder) returns (r: Option<Query>)
    ensures r == ReadQuery(pairs, decode)
  {
    var q := Query(None, None, None);
    for i := 0 to |pairs|
      invariant forall p :: p in pairs[..i] ==> !Malformed(p, decode)
      invariant q.lno == LastValue(pairs[..i], "lno", decode)
      invariant q.lightning == LastValue(pairs[..i], "lightning", decode)
      invariant q.amount == LastValue(pairs[..i], "amount", decode)
    {
      var pair := pairs[i];
      assert pairs[..i + 1] == pairs[..i] + [pair];
      assert pairs[..i + 1][..i] == pairs[..i];
      if pair == "" { continue; }
      var kv := ReadPair(pair, decode);
      if kv.None? {
        assert pair in pairs && Malformed(pair, decode);
        return None;
      }
      if kv.value.0 == "lno" {
        q := q.(lno := Some(kv.value.1));
      } else if kv.value.0 == "lightning" {
        q := q.(lightning := Some(kv.value.1));
      } else if kv.value.0 == "amount" {
        q := q.(amount := Some(kv.value.1));
      }
    }
    assert pairs[..|pairs|] == pairs;
    return Some(q);
  }

  /** Present and not empty. */
  predicate Given(o: Option<string>) {
    o.Some? && o.value != ""
  }

  /** Offer, then invoice, then a mainnet address with the amount when it can be read. */
  function Select(address: string, q: Query): Payment {
    if Given(q.lno) then Bolt12(q.lno.value)
    else if Given(q.lightning) then Bolt11(q.lightning.value)
    else if address == "" then Rejected(NoPaymentMethod)
    else if !Mainnet(address) then Rejected(WrongNetwork)
    else OnChain(address, if Given(q.amount) then BtcStringToSats(q.amount.value) else None)
  }

  /** The `parseBip321` of `payment-input.ts`. */
  function ParseBip321(input: string, decode: Decoder): Payment
    requires |input| >= 8
  {
    var parts := Split(input[8..], '?');
    var address, query := Trim(parts[0]), QueryPart(parts);
    if query == "" && address == "" then Rejected(EmptyUri)
    else
      var q := if query == "" then Some(Query(None, None, None)) else ReadQuery(Split(query, '&'), decode);
      if q.None? then Rejected(MalformedUri) else Select(address, q.value)
  }

  /** The second part, or nothing. */
  function QueryPart(parts: seq<string>): string {
    if |parts| > 1 then parts[1] else ""
  }

  method ParseBip321Uri(input: string, decode: Decoder) returns (r: Payment)
    requires |input| >= 8
    ensures r == ParseBip321(input, decode)
  {
    var parts := Split(input[8..], '?');
    var address, query := Trim(parts[0]), QueryPart(parts);
    if query == "" && address == "" { return Rejected(EmptyUri); }
    var q := Query(None, None, None);
    if query != "" {
      var parsed := ParseQuery(Split(query, '&'), decode);
      if parsed.None? { return Rejected(MalformedUri); }
      q := parsed.value;
    }
    r := Select(address, q);
  }

  /** Whatever the text, an address the wallet is told to pay has the form of a mainnet address. */
  lemma {:induction false} OnChainIsMainnet(raw: string, decode: Decoder)
    ensures Classify(raw, decode).OnChain? ==> Mainnet(Classify(raw, decode).address)
    decreases |raw|
  {
    TrimShorter(raw);
    var input := Trim(raw);
    var lower := ToLower(input);
    if !StartsWith(lower, "bitcoin:") && StartsWith(lower, "lightning:") {
      OnChainIsMainnet(input[10..], decode);
    }
  }

  // ---------- Text that is no URI ----------

  /** No white space anywhere. */
  predicate Tight(s: string) {
    forall i :: 0 <= i < |s| ==> !IsSpace(s[i])
  }

  /** White space around a text does not matter. */
  lemma OuterSpace(pre: string, s: string, post: string, decode: Decoder)
    requires AllSpace(pre) && AllSpace(post) && Trimmed(s) && s != ""
    ensures Classify(pre + s + post, decode) == Classify(s, decode)
  {
    TrimOf(pre, s, post);
    TrimTight(s);
  }

  lemma SchemeDropped(input: string, decode: Decoder)
    requires Trimmed(input) && StartsWith(ToLower(input), "lightning:")
    ensures Classify(input, decode) == Classify(input[10..], decode)
  {
    TrimTight(input);
    OtherPrefix(ToLower(input), "lightning:", "bitcoin:", 0);
  }

  lemma SchemeStarts(scheme: string, rest: string)
    requires ToLower(scheme) == "lightning:"
    ensures StartsWith(ToLower(scheme + rest), "lightning:") && (scheme + rest)[10..] == rest
  {
    assert ToLower(scheme + rest)[..10] == ToLower(scheme);
  }

  /** Nor does `lightning:` before it, in any letter case. */
  lemma LightningScheme(pre: string, scheme: string, mid: string, s: string, post: string, decode: Decoder)
    requires AllSpace(pre) && AllSpace(mid) && AllSpace(post) && Trimmed(s) && s != ""
    requires ToLower(scheme) == "lightning:" && Trimmed(scheme)
    ensures Classify(pre + (scheme + (mid + s)) + post, decode) == Classify(s, decode)
  {
    var input := scheme + (mid + s);
    SchemeStarts(scheme, mid + s);
    assert input[0] == scheme[0] && input[|input| - 1] == s[|s| - 1];
    OuterSpace(pre, input, post, decode);
    SchemeDropped(input, decode);
    assert mid + s == mid + s + "";
    OuterSpace(mid, s, "", decode);
  }

  lemma PrefixAt(s: string, p: string, i: nat)
    requires i < |p|
    ensures StartsWith(s, p) ==> s[i] == p[i]
  {
    assert StartsWith(s, p) ==> s[..|p|][i] == s[i];
  }

  lemma OtherPrefix(lower: string, p: string, q: string, i: nat)
    requires StartsWith(lower, p) && i < |p| && i < |q| && p[i] != q[i]
    ensures !StartsWith(lower, q)
  {
    PrefixAt(lower, p, i);
    PrefixAt(lower, q, i);
  }

  predicate InvoicePrefix(s: string) {
    StartsWith(ToLower(s), "lnbc") || StartsWith(ToLower(s), "lntb")
  }

  predicate OfferPrefix(s: string) {
    StartsWith(ToLower(s), "lno1")
  }

  /** A pasted invoice goes, as it is, to the invoice parser. */
  lemma InvoiceText(s: string, decode: Decoder)
    requires Trimmed(s) && InvoicePrefix(s)
    ensures Classify(s, decode) == Bolt11(s)
  {
    TrimTight(s);
    var lower := ToLower(s);
    if StartsWith(lower, "lnbc") {
      OtherPrefix(lower, "lnbc", "bitcoin:", 0);
      OtherPrefix(lower, "lnbc", "lightning:", 1);
    } else {
      OtherPrefix(lower, "lntb", "bitcoin:", 0);
      OtherPrefix(lower, "lntb", "lightning:", 1);
    }
  }

  /** A pasted offer goes to the offer parser. */
  lemma OfferText(s: string, decode: Decoder)
    requires Trimmed(s) && OfferPrefix(s)
    ensures Classify(s, decode) == Bolt12(s)
  {
    TrimTight(s);
    var lower := ToLower(s);
    OtherPrefix(lower, "lno1", "bitcoin:", 0);
    OtherPrefix(lower, "lno1", "lightning:", 1);
    OtherPrefix(lower, "lno1", "lnbc", 2);
    OtherPrefix(lower, "lno1", "lntb", 2);
  }

  /** `user@host.tld`: the three parts over their alphabets. */
  predicate NameParts(user: string, host: string, tld: string) {
    && user != "" && (forall i :: 0 <= i < |user| ==> IsHost(user[i]) || user[i] == '_')
    && host != "" && AllHost(host)
    && |tld| >= 2 && AllLetters(tld)
  }

  function NameText(user: string, host: string, tld: string): string {
    user + "@" + host + "." + tld
  }

  const BITCOIN_SIGN: string := [0x20bf as char]

  lemma NameIsName(user: string, host: string, tld: string)
    requires NameParts(user, host, tld)
    ensures IsName(NameText(user, host, tld)) && WithoutSign(NameText(user, host, tld)) == NameText(user, host, tld)
  {
    var t := NameText(user, host, tld);
    assert t == user + ['@'] + (host + "." + tld);
    IndexOfFirst(user, '@', host + "." + tld);
    assert t[0] == user[0];
    var dot := |user| + 1 + |host|;
    assert t[dot] == '.' && t[|user| + 1..dot] == host && t[dot + 1..] == tld;
  }

  /** What is needed of a name's text. */
  predicate NameLike(t: string) {
    IsName(t) && WithoutSign(t) == t && Tight(t) && forall i :: 0 <= i < |t| ==> t[i] != ':'
  }

  lemma SignedName(t: string, decode: Decoder)
    requires NameLike(t)
    ensures Classify(BITCOIN_SIGN + t, decode) == Name(t)
  {
    var s := BITCOIN_SIGN + t;
    assert s[1..] == t;
    SignedPrefix(t);
    NameClassified(s, t, decode);
  }

  lemma PlainName(t: string, decode: Decoder)
    requires NameLike(t)
    ensures Classify(t, decode) == (if InvoicePrefix(t) then Bolt11(t) else if OfferPrefix(t) then Bolt12(t) else Name(t))
  {
    if InvoicePrefix(t) { InvoiceText(t, decode); }
    else if OfferPrefix(t) { OfferText(t, decode); }
    else { NameClassified(t, t, decode); }
  }

  lemma NoColon(s: string, p: string, k: nat)
    requires k < |p| && p[k] == ':' && forall i :: 0 <= i < |s| ==> s[i] != ':'
    ensures !StartsWith(ToLower(s), p)
  {
    PrefixAt(ToLower(s), p, k);
  }

  /**
   * A name is read as one, without the optional bitcoin sign; but a user name that begins like an invoice
   * or an offer, without the sign, is taken for that.
   */
  lemma NameIsRead(user: string, host: string, tld: string, decode: Decoder)
    requires NameParts(user, host, tld)
    ensures var t := NameText(user, host, tld);
      && Classify(BITCOIN_SIGN + t, decode) == Name(t)
      && Classify(t, decode) == (if InvoicePrefix(t) then Bolt11(t) else if OfferPrefix(t) then Bolt12(t) else Name(t))
  {
    NameIsName(user, host, tld);
    NameChars(user, host, tld);
    SignedName(NameText(user, host, tld), decode);
    PlainName(NameText(user, host, tld), decode);
  }

  lemma NameClassified(s: string, name: string, decode: Decoder)
    requires IsName(s) && WithoutSign(s) == name && Tight(s) && forall i :: 0 <= i < |s| ==> s[i] != ':'
    requires !InvoicePrefix(s) && !OfferPrefix(s)
    ensures Classify(s, decode) == Name(name)
  {
    TrimTight(s);
    NoColon(s, "bitcoin:", 7);
    NoColon(s, "lightning:", 9);
  }

  lemma SignedPrefix(t: string)
    ensures !InvoicePrefix(BITCOIN_SIGN + t) && !OfferPrefix(BITCOIN_SIGN + t)
  {
    assert ToLower(BITCOIN_SIGN + t)[0] as int == 0x20bf;
  }

  lemma NameChars(user: string, host: string, tld: string)
    requires NameParts(user, host, tld)
    ensures var t := NameText(user, host, tld); Tight(t) && forall i :: 0 <= i < |t| ==> t[i] != ':'
  {
  }

  /** A bare mainnet address is an on-chain payment without an amount. */
  lemma AddressIsRead(s: string, decode: Decoder)
    requires Mainnet(s)
    ensures Classify(s, decode) == OnChain(s, None)
  {
    AddressChars(s);
    TrimTight(s);
    NoColon(s, "bitcoin:", 7);
    NoColon(s, "lightning:", 9);
    assert ToLower(s)[0] != 'l';
    assert !IsName(s);
  }

  /** Conversely only such texts are read as names. */
  lemma NameDecomposes(s: string) returns (user: string, host: string, tld: string)
    requires IsName(s)
    ensures NameParts(user, host, tld) && WithoutSign(s) == NameText(user, host, tld)
  {
    var t := WithoutSign(s);
    var at := IndexOf(t, '@');
    var dot :| at + 2 <= dot < |t| - 2 && t[dot] == '.' && AllHost(t[at + 1..dot]) && AllLetters(t[dot + 1..]);
    user, host, tld := t[..at], t[at + 1..dot], t[dot + 1..];
    CutAt(t, at, dot);
  }

  lemma CutAt(t: string, at: nat, dot: nat)
    requires at < dot < |t| && t[at] == '@' && t[dot] == '.'
    ensures t == NameText(t[..at], t[at + 1..dot], t[dot + 1..])
  {
    assert t == t[..at] + [t[at]] + t[at + 1..dot] + [t[dot]] + t[dot + 1..];
  }

  /** A segwit address: `bc1` and 25 to 87 lower-case letters and digits. */
  lemma Bech32Iff(body: string)
    ensures Bech32("bc1" + body) <==>
      25 <= |body| <= 87 && forall i :: 0 <= i < |body| ==> IsDigit(body[i]) || 'a' <= body[i] <= 'z'
  {
    var s := "bc1" + body;
    assert s[..3] == "bc1";
    forall i | 0 <= i < |body| ensures body[i] == s[i + 3] { }
  }

  /** A base58 address: 1 or 3 and 25 to 34 letters and digits other than 0, l, I and O. */
  lemma LegacyIff(c: char, body: string)
    ensures Legacy([c] + body) <==>
      (c == '1' || c == '3') && 25 <= |body| <= 34
      && forall i :: 0 <= i < |body| ==> (IsDigit(body[i]) || IsLetter(body[i])) && body[i] !in "0lIO"
  {
    var s := [c] + body;
    forall i | 0 <= i < |body| ensures body[i] == s[i + 1] { }
  }

  /** Anything else is refused. */
  lemma ElseUnrecognized(s: string, decode: Decoder)
    requires Trimmed(s) && !InvoicePrefix(s) && !OfferPrefix(s) && !IsName(s) && !Mainnet(s)
    requires !StartsWith(ToLower(s), "bitcoin:") && !StartsWith(ToLower(s), "lightning:")
    ensures Classify(s, decode) == Rejected(Unrecognized)
  {
    TrimTight(s);
  }

  lemma AddressChars(s: string)
    requires Mainnet(s)
    ensures Tight(s) && (forall i :: 0 <= i < |s| ==> s[i] != ':' && s[i] != '@')
    ensures s != "" && LowerChar(s[0]) in "b13" && s[0] as int != 0x20bf
  {
    if Legacy(s) {
      forall i | 0 <= i < |s| ensures IsDigit(s[i]) || IsLetter(s[i]) {
        assert i == 0 || IsDigit(s[i]) || IsLetter(s[i]);
      }
    } else {
      var low := ToLower(s);
      assert low[..3] == "bc1";
      forall i | 0 <= i < |s| ensures IsDigit(LowerChar(s[i])) || 'a' <= LowerChar(s[i]) <= 'z' {
        assert low[i] == LowerChar(s[i]);
        if i < 3 { assert low[..3][i] == low[i]; }
      }
    }
  }

  // ---------- Building ----------

  datatype Request = Request(address: Option<string>, amountSats: Option<int>, invoice: Option<string>, lno: Option<string>)

  /** A query parameter. */
  datatype Field = Field(key: string, value: string)

  function Text(f: Field): string {
    f.key + "=" + f.value
  }

  function Texts(fs: seq<Field>): (r: seq<string>)
    ensures |r| == |fs| && forall i :: 0 <= i < |fs| ==> r[i] == Text(fs[i])
  {
    seq(|fs|, i requires 0 <= i < |fs| => Text(fs[i]))
  }

  function UriOf(scheme: string, address: string, fs: seq<Field>): string {
    scheme + address + (if fs == [] then "" else "?" + Join(Texts(fs), '&'))
  }

  function UpperAddress(r: Request): string {
    if Given(r.address) then ToUpper(r.address.value) else ""
  }

  predicate HasAmount(r: Request) {
    r.amountSats.Some? && r.amountSats.value > 0
  }

  function AmountText(r: Request): Option<string> {
    if HasAmount(r) then Some(SatsToBtcString(r.amountSats.value)) else None
  }

  /** A parameter is written when its value is present and not empty. */
  function Optional(key: string, value: Option<string>): seq<Field> {
    if Given(value) then [Field(key, value.value)] else []
  }

  function Fields(r: Request): seq<Field> {
    Optional("amount", AmountText(r)) + Optional("lightning", r.invoice) + Optional("lno", r.lno)
  }

  function BuiltUri(r: Request): string {
    UriOf("bitcoin:", UpperAddress(r), Fields(r))
  }

  /** `buildBip321Uri` */
  method BuildBip321Uri(r: Request) returns (uri: string)
    ensures uri == BuiltUri(r)
  {
    var base := if Given(r.address) then "bitcoin:" + ToUpper(r.address.value) else "bitcoin:";
    var params: seq<string> := [];
    if HasAmount(r) {
      params := params + ["amount=" + AmountText(r).value];
    }
    if Given(r.invoice) {
      params := params + ["lightning=" + r.invoice.value];
    }
    if Given(r.lno) {
      params := params + ["lno=" + r.lno.value];
    }
    AmountIsGiven(r);
    TextsOf(AmountText(r), r.invoice, r.lno);
    assert base == "bitcoin:" + UpperAddress(r);
    assert params == Texts(Fields(r));
    uri := if |params| > 0 then base + ("?" + Join(params, '&')) else base;
  }

  lemma AmountIsGiven(r: Request)
    ensures Given(AmountText(r)) <==> HasAmount(r)
  {
  }

  lemma TextsOf(amount: Option<string>, invoice: Option<string>, offer: Option<string>)
    ensures Texts(Optional("amount", amount) + Optional("lightning", invoice) + Optional("lno", offer)) ==
      (if Given(amount) then ["amount=" + amount.value] else [])
      + (if Given(invoice) then ["lightning=" + invoice.value] else [])
      + (if Given(offer) then ["lno=" + offer.value] else [])
  {
    TextOf("amount", "amount=", amount);
    TextOf("lightning", "lightning=", invoice);
    TextOf("lno", "lno=", offer);
    TextsAppend(Optional("amount", amount), Optional("lightning", invoice));
    TextsAppend(Optional("amount", amount) + Optional("lightning", invoice), Optional("lno", offer));
  }

  lemma TextOf(key: string, start: string, value: Option<string>)
    requires start == key + "="
    ensures Texts(Optional(key, value)) == if Given(value) then [start + value.value] else []
  {
  }

  lemma TextsAppend(fs: seq<Field>, gs: seq<Field>)
    ensures Texts(fs + gs) == Texts(fs) + Texts(gs)
  {
  }

  // ---------- What a clean URI is classified as ----------

  /** Not a separator, not an escape, not white space. */
  predicate Clean(s: string) {
    forall i :: 0 <= i < |s| ==> s[i] !in "?&%" && !IsSpace(s[i])
  }

  predicate CleanField(f: Field) {
    f.key != "" && Clean(f.key) && Free(f.key, '=') && Clean(f.value)
  }

  predicate CleanFields(fs: seq<Field>) {
    forall i :: 0 <= i < |fs| ==> CleanField(fs[i])
  }

  /** Decoding changes nothing where there is no escape. */
  ghost predicate PlainIdentity(decode: Decoder) {
    forall s :: Free(s, '%') ==> decode(s) == Some(s)
  }

  /** The value of the last field with this key, whatever the key's case. */
  function Find(fs: seq<Field>, key: string): Option<string> {
    if fs == [] then None
    else
      var last := fs[|fs| - 1];
      if ToLower(last.key) == key then Some(last.value) else Find(fs[..|fs| - 1], key)
  }

  function Found(fs: seq<Field>): Query {
    Query(Find(fs, "lno"), Find(fs, "lightning"), Find(fs, "amount"))
  }

  lemma PairIsField(f: Field, decode: Decoder)
    requires CleanField(f) && PlainIdentity(decode)
    ensures Text(f) != "" && ReadPair(Text(f), decode) == Some((ToLower(f.key), f.value))
  {
    var t := Text(f);
    IndexOfFirst(f.key, '=', f.value);
    assert t == f.key + ['='] + f.value;
    assert t[..|f.key|] == f.key && t[|f.key| + 1..] == f.value;
    assert Free(f.key, '%') && Free(f.value, '%');
  }

  lemma {:induction false} LastIsFind(fs: seq<Field>, key: string, decode: Decoder)
    requires CleanFields(fs) && PlainIdentity(decode)
    ensures LastValue(Texts(fs), key, decode) == Find(fs, key)
  {
    if fs != [] {
      var n := |fs| - 1;
      PairIsField(fs[n], decode);
      assert Texts(fs)[..n] == Texts(fs[..n]);
      LastIsFind(fs[..n], key, decode);
    }
  }

  lemma QueryIsFound(fs: seq<Field>, decode: Decoder)
    requires CleanFields(fs) && PlainIdentity(decode)
    ensures ReadQuery(Texts(fs), decode) == Some(Found(fs))
  {
    forall p | p in Texts(fs) ensures !Malformed(p, decode) {
      var i :| 0 <= i < |fs| && p == Texts(fs)[i];
      PairIsField(fs[i], decode);
    }
    LastIsFind(fs, "lno", decode);
    LastIsFind(fs, "lightning", decode);
    LastIsFind(fs, "amount", decode);
  }

  lemma TextClean(f: Field)
    requires CleanField(f)
    ensures Text(f) != "" && Clean(Text(f))
  {
  }

  lemma {:induction false} JoinClean(parts: seq<string>)
    requires |parts| >= 1 && forall i :: 0 <= i < |parts| ==> parts[i] != "" && Clean(parts[i])
    ensures Free(Join(parts, '&'), '?') && Tight(Join(parts, '&')) && Join(parts, '&') != ""
  {
    if |parts| > 1 { JoinClean(parts[1..]); }
  }

  lemma QueryTexts(fs: seq<Field>)
    requires CleanFields(fs) && fs != []
    ensures var q := Join(Texts(fs), '&');
      q != "" && Free(q, '?') && Tight(q) && Split(q, '&') == Texts(fs)
  {
    forall i | 0 <= i < |fs| ensures Texts(fs)[i] != "" && Clean(Texts(fs)[i]) && Free(Texts(fs)[i], '&') {
      TextClean(fs[i]);
    }
    JoinClean(Texts(fs));
    SplitJoin(Texts(fs), '&');
  }

  lemma CleanSplits(address: string, fs: seq<Field>)
    requires Clean(address) && CleanFields(fs)
    ensures var rest := UriOf("", address, fs);
      Split(rest, '?') == if fs == [] then [address] else [address, Join(Texts(fs), '&')]
  {
    var rest := UriOf("", address, fs);
    if fs == [] {
      assert rest == address;
      SplitFree(address, '?');
    } else {
      var q := Join(Texts(fs), '&');
      QueryTexts(fs);
      SplitFree(q, '?');
      SplitFirst(address, '?', q);
      assert rest == address + ['?'] + q;
    }
  }

  lemma ParsesClean(scheme: string, address: string, fs: seq<Field>, decode: Decoder)
    requires |scheme| == 8 && Clean(address) && CleanFields(fs) && PlainIdentity(decode)
    ensures ParseBip321(UriOf(scheme, address, fs), decode) ==
      if address == "" && fs == [] then Rejected(EmptyUri) else Select(address, Found(fs))
  {
    assert UriOf(scheme, address, fs)[8..] == UriOf("", address, fs);
    CleanSplits(address, fs);
    TrimTight(address);
    if fs != [] {
      QueryTexts(fs);
      QueryIsFound(fs, decode);
    }
  }

  lemma UriTight(scheme: string, address: string, fs: seq<Field>)
    requires scheme != "" && Tight(scheme) && Clean(address) && CleanFields(fs)
    ensures Trim(UriOf(scheme, address, fs)) == UriOf(scheme, address, fs)
  {
    if fs != [] { QueryTexts(fs); }
    TrimTight(UriOf(scheme, address, fs));
  }

  lemma ClassifiesClean(scheme: string, address: string, fs: seq<Field>, decode: Decoder)
    requires ToLower(scheme) == "bitcoin:" && Tight(scheme)
    requires Clean(address) && CleanFields(fs) && PlainIdentity(decode)
    ensures Classify(UriOf(scheme, address, fs), decode) ==
      if address == "" && fs == [] then Rejected(EmptyUri) else Select(address, Found(fs))
  {
    var uri := UriOf(scheme, address, fs);
    UriTight(scheme, address, fs);
    assert ToLower(uri)[..8] == ToLower(scheme);
    ParsesClean(scheme, address, fs, decode);
  }

  lemma OnlyAmount(amount: string)
    ensures Found([Field("amount", amount)]) == Query(None, None, Some(amount))
  {
    var f := Field("amount", amount);
    assert ToLower("amount") == "amount";
    assert [] + [f] == [f];
    FindLast([], f, "lno");
    FindLast([], f, "lightning");
    FindLast([], f, "amount");
    assert |"amount"| == 6 && |"lno"| == 3 && |"lightning"| == 9;
  }

  /** An amount that is no decimal number is ignored, not refused. */
  lemma BadAmountIgnored(scheme: string, address: string, amount: string, decode: Decoder)
    requires ToLower(scheme) == "bitcoin:" && Tight(scheme) && Clean(address) && Clean(amount) && PlainIdentity(decode)
    requires Mainnet(address) && !ParseNumeral(Trim(amount)).Numeral?
    ensures Classify(UriOf(scheme, address, [Field("amount", amount)]), decode) == OnChain(address, None)
  {
    AddressChars(address);
    KeyClean("amount", "amount");
    ClassifiesClean(scheme, address, [Field("amount", amount)], decode);
    OnlyAmount(amount);
    ReadsFloor(amount);
  }

  lemma SchemedUri(scheme: string, rest: string, decode: Decoder)
    requires ToLower(scheme) == "bitcoin:" && Tight(scheme) && Tight(rest)
    ensures Classify(scheme + rest, decode) == ParseBip321(scheme + rest, decode) && (scheme + rest)[8..] == rest
  {
    assert ToLower(scheme + rest)[..8] == ToLower(scheme);
    TrimTight(scheme + rest);
  }

  /** A pair that cannot be decoded spoils the whole URI, whatever else it offers. */
  lemma MalformedIsRejected(scheme: string, address: string, pairs: seq<string>, k: nat, decode: Decoder)
    requires ToLower(scheme) == "bitcoin:" && Tight(scheme) && Clean(address)
    requires k < |pairs| && Malformed(pairs[k], decode)
    requires forall i :: 0 <= i < |pairs| ==> pairs[i] != "" && Tight(pairs[i]) && Free(pairs[i], '&') && Free(pairs[i], '?')
    ensures Classify(scheme + (address + ['?'] + Join(pairs, '&')), decode) == Rejected(MalformedUri)
  {
    var q := Join(pairs, '&');
    JoinTight(pairs);
    SchemedUri(scheme, address + ['?'] + q, decode);
    SplitFirst(address, '?', q);
    SplitFree(q, '?');
    SplitJoin(pairs, '&');
    MalformedQuery(pairs, k, decode);
    MalformedParse(scheme + (address + ['?'] + q), address, q, pairs, decode);
  }

  lemma MalformedParse(input: string, address: string, q: string, pairs: seq<string>, decode: Decoder)
    requires |input| >= 8 && Split(input[8..], '?') == [address] + [q] && q != ""
    requires Split(q, '&') == pairs && ReadQuery(pairs, decode) == None
    ensures ParseBip321(input, decode) == Rejected(MalformedUri)
  {
  }

  lemma MalformedQuery(pairs: seq<string>, k: nat, decode: Decoder)
    requires k < |pairs| && Malformed(pairs[k], decode)
    ensures ReadQuery(pairs, decode) == None
  {
    assert pairs[k] in pairs;
  }

  lemma {:induction false} JoinTight(parts: seq<string>)
    requires |parts| >= 1 && forall i :: 0 <= i < |parts| ==> parts[i] != "" && Tight(parts[i]) && Free(parts[i], '?')
    ensures Free(Join(parts, '&'), '?') && Tight(Join(parts, '&')) && Join(parts, '&') != ""
  {
    if |parts| > 1 { JoinTight(parts[1..]); }
  }

  // ---------- Building, then classifying ----------

  predicate CleanRequest(r: Request) {
    CleanOption(r.address) && CleanOption(r.invoice) && CleanOption(r.lno)
  }

  predicate CleanOption(o: Option<string>) {
    o.Some? ==> Clean(o.value)
  }

  lemma {:induction false} DigitsClean(s: string)
    requires AllDigits(s)
    ensures Clean(s) && ToUpper(s) == s
  {
  }

  lemma AmountClean(sats: nat)
    ensures Clean(SatsToBtcString(sats)) && ToUpper(SatsToBtcString(sats)) == SatsToBtcString(sats)
  {
    DigitsClean(Digits(sats / SATS_PER_BTC));
    DigitsClean(PadStart(Digits(sats % SATS_PER_BTC), PLACES));
  }

  lemma UpperClean(s: string)
    requires Clean(s)
    ensures Clean(ToUpper(s))
  {
    forall i | 0 <= i < |s| ensures ToUpper(s)[i] !in "?&%" && !IsSpace(ToUpper(s)[i]) {
      assert s[i] !in "?&%" && !IsSpace(s[i]);
    }
  }

  lemma {:induction false} FindLast(fs: seq<Field>, f: Field, key: string)
    ensures Find(fs + [f], key) == if ToLower(f.key) == key then Some(f.value) else Find(fs, key)
  {
    assert (fs + [f])[..|fs|] == fs;
  }

  lemma FindAppend(fs: seq<Field>, gs: seq<Field>, key: string)
    requires |gs| <= 1
    ensures Find(fs + gs, key) ==
      if gs != [] && ToLower(gs[0].key) == key then Some(gs[0].value) else Find(fs, key)
  {
    if gs == [] {
      assert fs + gs == fs;
    } else {
      assert gs == [gs[0]];
      FindLast(fs, gs[0], key);
    }
  }

  lemma FoundKey(fs: seq<Field>, gs: seq<Field>, hs: seq<Field>, key: string)
    requires |fs| <= 1 && |gs| <= 1 && |hs| <= 1
    ensures Find(fs + gs + hs, key) ==
      if hs != [] && ToLower(hs[0].key) == key then Some(hs[0].value)
      else if gs != [] && ToLower(gs[0].key) == key then Some(gs[0].value)
      else if fs != [] && ToLower(fs[0].key) == key then Some(fs[0].value)
      else None
  {
    FindAppend(fs + gs, hs, key);
    FindAppend(fs, gs, key);
    FindAppend([], fs, key);
    assert [] + fs == fs;
  }

  /** The three keys, in some letter case. */
  datatype Keys = Keys(amount: string, invoice: string, offer: string)

  predicate GoodKeys(k: Keys) {
    && ToLower(k.amount) == "amount" && ToLower(k.invoice) == "lightning" && ToLower(k.offer) == "lno"
  }

  function Listed(k: Keys, amount: Option<string>, invoice: Option<string>, offer: Option<string>): seq<Field> {
    Optional(k.amount, amount) + Optional(k.invoice, invoice) + Optional(k.offer, offer)
  }

  function OrNone(o: Option<string>): Option<string> {
    if Given(o) then o else None
  }

  lemma FoundListed(k: Keys, amount: Option<string>, invoice: Option<string>, offer: Option<string>)
    requires GoodKeys(k)
    ensures Found(Listed(k, amount, invoice, offer)) == Query(OrNone(offer), OrNone(invoice), OrNone(amount))
  {
    var fs, gs, hs := Optional(k.amount, amount), Optional(k.invoice, invoice), Optional(k.offer, offer);
    FoundKey(fs, gs, hs, "lno");
    FoundKey(fs, gs, hs, "lightning");
    FoundKey(fs, gs, hs, "amount");
  }

  lemma KeyClean(key: string, low: string)
    requires ToLower(key) == low && low != "" && forall i :: 0 <= i < |low| ==> 'a' <= low[i] <= 'z'
    ensures key != "" && Clean(key) && Free(key, '=')
  {
    forall i | 0 <= i < |key| ensures IsLetter(key[i]) {
      assert 'a' <= LowerChar(key[i]) <= 'z';
    }
  }

  lemma ListedClean(k: Keys, amount: Option<string>, invoice: Option<string>, offer: Option<string>)
    requires GoodKeys(k) && CleanOption(amount) && CleanOption(invoice) && CleanOption(offer)
    ensures CleanFields(Listed(k, amount, invoice, offer))
  {
    KeyClean(k.amount, "amount");
    KeyClean(k.invoice, "lightning");
    KeyClean(k.offer, "lno");
  }

  /**
   * What a URI with these parts must be understood as: the offer, else the invoice, else the
   * address with the amount, else nothing to pay.
   */
  function Meaning(address: string, amountSats: Option<nat>, invoice: Option<string>, offer: Option<string>): Payment {
    if Given(offer) then Bolt12(offer.value)
    else if Given(invoice) then Bolt11(invoice.value)
    else if address != "" then
      if Mainnet(address) then OnChain(address, amountSats) else Rejected(WrongNetwork)
    else if amountSats.Some? then Rejected(NoPaymentMethod)
    else Rejected(EmptyUri)
  }

  lemma ClassifiesListed(scheme: string, address: string, k: Keys, sats: Option<nat>,
      amount: Option<string>, invoice: Option<string>, offer: Option<string>, decode: Decoder)
    requires ToLower(scheme) == "bitcoin:" && Tight(scheme) && PlainIdentity(decode)
    requires GoodKeys(k) && Clean(address) && CleanOption(amount) && CleanOption(invoice) && CleanOption(offer)
    requires sats == if Given(amount) then BtcStringToSats(amount.value) else None
    requires sats.Some? <==> Given(amount)
    ensures Classify(UriOf(scheme, address, Listed(k, amount, invoice, offer)), decode) == Meaning(address, sats, invoice, offer)
  {
    ListedClean(k, amount, invoice, offer);
    FoundListed(k, amount, invoice, offer);
    ClassifiesClean(scheme, address, Listed(k, amount, invoice, offer), decode);
  }

  function Positive(r: Request): Option<nat> {
    if r.amountSats.Some? && r.amountSats.value > 0 then Some(r.amountSats.value) else None
  }

  lemma AmountIs(r: Request)
    ensures CleanOption(AmountText(r))
    ensures Positive(r) == if Given(AmountText(r)) then BtcStringToSats(AmountText(r).value) else None
    ensures Positive(r).Some? <==> Given(AmountText(r))
  {
    if HasAmount(r) {
      AmountClean(r.amountSats.value);
      SatsRoundTrip(r.amountSats.value);
    }
  }

  lemma AddressClean(r: Request)
    requires CleanRequest(r)
    ensures Clean(UpperAddress(r))
  {
    if Given(r.address) { UpperClean(r.address.value); }
  }

  /** A built URI is understood as what was asked for. */
  lemma UriRoundTrip(r: Request, decode: Decoder)
    requires CleanRequest(r) && PlainIdentity(decode)
    ensures Classify(BuiltUri(r), decode) == Meaning(UpperAddress(r), Positive(r), r.invoice, r.lno)
  {
    AmountIs(r);
    AddressClean(r);
    var k := Keys("amount", "lightning", "lno");
    ClassifiesListed("bitcoin:", UpperAddress(r), k, Positive(r), AmountText(r), r.invoice, r.lno, decode);
  }

  // ---------- The upper-cased URI of the QR code ----------

  function UpperOption(o: Option<string>): Option<string> {
    if o.Some? then Some(ToUpper(o.value)) else None
  }

  function UpperFields(fs: seq<Field>): (r: seq<Field>)
    ensures |r| == |fs| && forall i :: 0 <= i < |fs| ==> r[i] == Field(ToUpper(fs[i].key), ToUpper(fs[i].value))
  {
    seq(|fs|, i requires 0 <= i < |fs| => Field(ToUpper(fs[i].key), ToUpper(fs[i].value)))
  }

  lemma UpperAppend(a: string, b: string)
    ensures ToUpper(a + b) == ToUpper(a) + ToUpper(b)
  {
  }

  lemma UpperText(f: Field)
    ensures ToUpper(Text(f)) == Text(Field(ToUpper(f.key), ToUpper(f.value)))
  {
    UpperAppend(f.key + "=", f.value);
    UpperAppend(f.key, "=");
    assert ToUpper("=") == "=";
  }

  lemma {:induction false} UpperJoin(fs: seq<Field>)
    requires fs != []
    ensures ToUpper(Join(Texts(fs), '&')) == Join(Texts(UpperFields(fs)), '&')
  {
    UpperText(fs[0]);
    if |fs| > 1 {
      UpperJoin(fs[1..]);
      var rest := Join(Texts(fs[1..]), '&');
      assert Texts(fs)[1..] == Texts(fs[1..]);
      assert Texts(UpperFields(fs))[1..] == Texts(UpperFields(fs[1..]));
      UpperAppend(Text(fs[0]) + ['&'], rest);
      UpperAppend(Text(fs[0]), ['&']);
      assert ToUpper(['&']) == ['&'];
    }
  }

  lemma UpperUri(scheme: string, address: string, fs: seq<Field>)
    ensures ToUpper(UriOf(scheme, address, fs)) == UriOf(ToUpper(scheme), ToUpper(address), UpperFields(fs))
  {
    UpperAppend(scheme, address);
    if fs == [] {
      UpperAppend(scheme + address, "");
    } else {
      var q := Join(Texts(fs), '&');
      UpperJoin(fs);
      UpperAppend(scheme + address, "?" + q);
      UpperAppend("?", q);
      assert ToUpper("?") == "?";
    }
  }

  lemma UpperListed(k: Keys, amount: Option<string>, invoice: Option<string>, offer: Option<string>)
    ensures UpperFields(Listed(k, amount, invoice, offer)) ==
      Listed(Keys(ToUpper(k.amount), ToUpper(k.invoice), ToUpper(k.offer)),
        UpperOption(amount), UpperOption(invoice), UpperOption(offer))
  {
  }

  lemma UpperTwice(s: string)
    ensures ToUpper(ToUpper(s)) == ToUpper(s)
  {
  }

  lemma UpperRequest(r: Request)
    requires CleanRequest(r)
    ensures UpperOption(AmountText(r)) == AmountText(r)
    ensures ToUpper(UpperAddress(r)) == UpperAddress(r)
    ensures CleanOption(UpperOption(r.invoice)) && CleanOption(UpperOption(r.lno))
  {
    if HasAmount(r) { AmountClean(r.amountSats.value); }
    if Given(r.address) { UpperTwice(r.address.value); }
    if r.invoice.Some? { UpperClean(r.invoice.value); }
    if r.lno.Some? { UpperClean(r.lno.value); }
  }

  lemma UpperKeys()
    ensures GoodKeys(Keys(ToUpper("amount"), ToUpper("lightning"), ToUpper("lno")))
    ensures ToLower(ToUpper("bitcoin:")) == "bitcoin:" && Tight(ToUpper("bitcoin:"))
  {
  }

  /** So is the upper-cased one, with invoice and offer in upper case. */
  lemma UpperUriRoundTrip(r: Request, decode: Decoder)
    requires CleanRequest(r) && PlainIdentity(decode)
    ensures Classify(ToUpper(BuiltUri(r)), decode) ==
      Meaning(UpperAddress(r), Positive(r), UpperOption(r.invoice), UpperOption(r.lno))
  {
    AmountIs(r);
    AddressClean(r);
    UpperRequest(r);
    UpperKeys();
    var k := Keys("amount", "lightning", "lno");
    UpperUri("bitcoin:", UpperAddress(r), Fields(r));
    UpperListed(k, AmountText(r), r.invoice, r.lno);
    ClassifiesListed(ToUpper("bitcoin:"), UpperAddress(r), Keys(ToUpper("amount"), ToUpper("lightning"), ToUpper("lno")),
      Positive(r), AmountText(r), UpperOption(r.invoice), UpperOption(r.lno), decode);
  }

  /** The address of a receiving request is accepted exactly when it is written as on mainnet. */
  lemma UpperAddressIsMainnet(address: string)
    requires Bech32(ToLower(address))
    ensures Mainnet(ToUpper(address))
  {
    assert ToLower(ToUpper(address)) == ToLower(address);
  }

  /** The address itself comes back exactly when it is a mainnet address without lower-case letters. */
  lemma AddressComesBack(r: Request, decode: Decoder)
    requires CleanRequest(r) && PlainIdentity(decode) && Given(r.address) && !Given(r.invoice) && !Given(r.lno)
    ensures Classify(BuiltUri(r), decode) == OnChain(r.address.value, Positive(r)) <==>
      Mainnet(r.address.value) && ToUpper(r.address.value) == r.address.value
  {
    UriRoundTrip(r, decode);
  }

  // ---------- The reader of `bip321.ts` ----------

  /** How `URLSearchParams` decodes a name or a value; it never throws. */
  type FormDecoder = string -> string

  ghost predicate FormIdentity(form: FormDecoder) {
    forall s :: Free(s, '%') && Free(s, '+') ==> form(s) == s
  }

  /** `new URLSearchParams(pairs.join('&')).get(key)`: the first pair with this very key. */
  function FirstValue(pairs: seq<string>, key: string, form: FormDecoder): Option<string> {
    if pairs == [] then None
    else
      var pair := pairs[0];
      var eq := IndexOf(pair, '=');
      if pair != "" && form(pair[..eq]) == key then Some(form(if eq == |pair| then "" else pair[eq + 1..]))
      else FirstValue(pairs[1..], key, form)
  }

  /** The `parseBip321` of `bip321.ts`: the address and the amount, or null. */
  function ReadBip321(input: string, form: FormDecoder): Option<(string, Option<nat>)> {
    if !StartsWith(ToLower(input), "bitcoin:") then None
    else
      var parts := Split(input[8..], '?');
      var address, query := Trim(parts[0]), QueryPart(parts);
      var amount := if query == "" then None else FirstValue(Split(query, '&'), "amount", form);
      if address == "" then None
      else Some((address, if Given(amount) then BtcStringToSats(amount.value) else None))
  }

  lemma FormPair(f: Field, form: FormDecoder)
    requires CleanField(f) && Free(f.key, '+') && FormIdentity(form)
    ensures var t := Text(f);
      t != "" && IndexOf(t, '=') == |f.key| && form(t[..|f.key|]) == f.key && t[|f.key| + 1..] == f.value
  {
    IndexOfFirst(f.key, '=', f.value);
    assert Text(f) == f.key + ['='] + f.value;
    assert Text(f)[..|f.key|] == f.key;
    assert Free(f.key, '%');
  }

  lemma {:induction false} NoSuchKey(fs: seq<Field>, key: string, form: FormDecoder)
    requires CleanFields(fs) && FormIdentity(form)
    requires forall i :: 0 <= i < |fs| ==> Free(fs[i].key, '+') && fs[i].key != key
    ensures FirstValue(Texts(fs), key, form) == None
  {
    if fs != [] {
      FormPair(fs[0], form);
      assert Texts(fs)[1..] == Texts(fs[1..]);
      NoSuchKey(fs[1..], key, form);
    }
  }

  lemma ReadsClean(scheme: string, address: string, fs: seq<Field>, form: FormDecoder)
    requires ToLower(scheme) == "bitcoin:" && Clean(address) && address != "" && CleanFields(fs)
    ensures var amount := FirstValue(Texts(fs), "amount", form);
      ReadBip321(UriOf(scheme, address, fs), form) ==
        Some((address, if Given(amount) then BtcStringToSats(amount.value) else None))
  {
    var uri := UriOf(scheme, address, fs);
    assert uri[8..] == UriOf("", address, fs);
    assert ToLower(uri)[..8] == ToLower(scheme);
    CleanSplits(address, fs);
    TrimTight(address);
    if fs != [] { QueryTexts(fs); }
  }

  lemma FirstListed(amount: Option<string>, invoice: Option<string>, offer: Option<string>, form: FormDecoder)
    requires CleanOption(amount) && CleanOption(invoice) && CleanOption(offer) && FormIdentity(form)
    requires amount.Some? ==> Free(amount.value, '+')
    ensures FirstValue(Texts(Listed(Keys("amount", "lightning", "lno"), amount, invoice, offer)), "amount", form) == OrNone(amount)
  {
    var k := Keys("amount", "lightning", "lno");
    var fs := Listed(k, amount, invoice, offer);
    ListedClean(k, amount, invoice, offer);
    if Given(amount) {
      assert fs[0] == Field("amount", amount.value);
      FirstIs(fs, form);
    } else {
      NoSuchKey(fs, "amount", form);
    }
  }

  lemma FirstIs(fs: seq<Field>, form: FormDecoder)
    requires CleanFields(fs) && FormIdentity(form) && fs != [] && Free(fs[0].key, '+') && Free(fs[0].value, '+')
    ensures FirstValue(Texts(fs), fs[0].key, form) == Some(fs[0].value)
  {
    FormPair(fs[0], form);
    assert CleanField(fs[0]) && Free(fs[0].value, '%');
  }

  /** This reader, too, gets the address and the exact amount out of a built URI. */
  lemma ReadBack(r: Request, form: FormDecoder)
    requires CleanRequest(r) && FormIdentity(form) && Given(r.address)
    ensures ReadBip321(BuiltUri(r), form) == Some((UpperAddress(r), Positive(r)))
  {
    AmountIs(r);
    AddressClean(r);
    ListedClean(Keys("amount", "lightning", "lno"), AmountText(r), r.invoice, r.lno);
    ReadsClean("bitcoin:", UpperAddress(r), Fields(r), form);
    AmountNoPlus(r);
    FirstListed(AmountText(r), r.invoice, r.lno, form);
  }

  lemma AmountNoPlus(r: Request)
    ensures AmountText(r).Some? ==> Free(AmountText(r).value, '+')
  {
  }

  /** But not out of the upper-cased one: it looks for the key in lower case and finds no amount. */
  lemma UpperLosesAmount(r: Request, form: FormDecoder)
    requires CleanRequest(r) && FormIdentity(form) && Given(r.address)
    ensures ReadBip321(ToUpper(BuiltUri(r)), form) == Some((UpperAddress(r), None))
  {
    var k := Keys(ToUpper("amount"), ToUpper("lightning"), ToUpper("lno"));
    AmountIs(r);
    AddressClean(r);
    UpperRequest(r);
    UpperKeys();
    UpperUri("bitcoin:", UpperAddress(r), Fields(r));
    UpperListed(Keys("amount", "lightning", "lno"), AmountText(r), r.invoice, r.lno);
    var fs := Listed(k, AmountText(r), UpperOption(r.invoice), UpperOption(r.lno));
    ListedClean(k, AmountText(r), UpperOption(r.invoice), UpperOption(r.lno));
    ReadsClean(ToUpper("bitcoin:"), UpperAddress(r), fs, form);
    NoUpperAmount(AmountText(r), UpperOption(r.invoice), UpperOption(r.lno), form);
  }

  lemma NoUpperAmount(amount: Option<string>, invoice: Option<string>, offer: Option<string>, form: FormDecoder)
    requires CleanOption(amount) && CleanOption(invoice) && CleanOption(offer) && FormIdentity(form)
    ensures var k := Keys(ToUpper("amount"), ToUpper("lightning"), ToUpper("lno"));
      FirstValue(Texts(Listed(k, amount, invoice, offer)), "amount", form) == None
  {
    var k := Keys(ToUpper("amount"), ToUpper("lightning"), ToUpper("lno"));
    UpperKeys();
    ListedClean(k, amount, invoice, offer);
    KeysAreUpper(k.amount);
    KeysAreUpper(k.invoice);
    KeysAreUpper(k.offer);
    NoSuchKey(Listed(k, amount, invoice, offer), "amount", form);
  }

  lemma KeysAreUpper(key: string)
    requires key == ToUpper("amount") || key == ToUpper("lightning") || key == ToUpper("lno")
    ensures Free(key, '+') && key != "amount"
  {
    assert 'A' <= key[0] <= 'Z';
  }

  // ---------- The keys as they stand in the text ----------

  lemma OneFieldUri(key: string, value: string)
    ensures UriOf("bitcoin:", "", [Field(key, value)]) == "bitcoin:?" + (key + "=" + value)
  {
    assert Texts([Field(key, value)]) == [Text(Field(key, value))];
  }

  lemma OneField(amount: Option<string>, invoice: Option<string>, offer: Option<string>)
    ensures var fs := Optional("amount", amount) + Optional("lightning", invoice) + Optional("lno", offer);
      && (Given(amount) && !Given(invoice) && !Given(offer) ==> fs == [Field("amount", amount.value)])
      && (!Given(amount) && Given(invoice) && !Given(offer) ==> fs == [Field("lightning", invoice.value)])
      && (!Given(amount) && !Given(invoice) && Given(offer) ==> fs == [Field("lno", offer.value)])
  {
  }

  /** What the builder writes for one parameter, key and all. */
  lemma BuiltInvoice(r: Request)
    requires !Given(r.address) && !HasAmount(r) && Given(r.invoice) && !Given(r.lno)
    ensures BuiltUri(r) == "bitcoin:?" + ("lightning" + "=" + r.invoice.value)
  {
    OneField(AmountText(r), r.invoice, r.lno);
    OneFieldUri("lightning", r.invoice.value);
  }

  lemma BuiltOffer(r: Request)
    requires !Given(r.address) && !HasAmount(r) && !Given(r.invoice) && Given(r.lno)
    ensures BuiltUri(r) == "bitcoin:?" + ("lno" + "=" + r.lno.value)
  {
    OneField(AmountText(r), r.invoice, r.lno);
    OneFieldUri("lno", r.lno.value);
  }

  lemma BuiltAmount(r: Request)
    requires !Given(r.address) && HasAmount(r) && !Given(r.invoice) && !Given(r.lno)
    ensures BuiltUri(r) == "bitcoin:?" + ("amount" + "=" + SatsToBtcString(r.amountSats.value))
  {
    AmountIs(r);
    OneField(AmountText(r), r.invoice, r.lno);
    OneFieldUri("amount", SatsToBtcString(r.amountSats.value));
  }

  lemma ReadOne(key: string, text: string, decode: Decoder)
    requires CleanField(Field(key, text)) && ToLower(key) == key && PlainIdentity(decode)
    ensures Classify("bitcoin:?" + (key + "=" + text), decode) == Select("", Found([Field(key, text)]))
  {
    OneFieldUri(key, text);
    ClassifiesClean("bitcoin:", "", [Field(key, text)], decode);
  }

  lemma InvoiceFound(text: string)
    requires text != ""
    ensures Select("", Found([Field("lightning", text)])) == Bolt11(text)
  {
    assert |"lno"| != |"lightning"|;
    OneFound("lightning", text);
  }

  lemma OfferFound(text: string)
    requires text != ""
    ensures Select("", Found([Field("lno", text)])) == Bolt12(text)
  {
    OneFound("lno", text);
  }

  /** What the classifier reads under `lightning` is an invoice, */
  lemma ReadInvoice(text: string, decode: Decoder)
    requires Clean(text) && text != "" && PlainIdentity(decode)
    ensures Classify("bitcoin:?" + ("lightning" + "=" + text), decode) == Bolt11(text)
  {
    KeyClean("lightning", "lightning");
    InvoiceFound(text);
    ReadOne("lightning", text, decode);
  }

  /** and under `lno` an offer. */
  lemma ReadOffer(text: string, decode: Decoder)
    requires Clean(text) && text != "" && PlainIdentity(decode)
    ensures Classify("bitcoin:?" + ("lno" + "=" + text), decode) == Bolt12(text)
  {
    KeyClean("lno", "lno");
    OfferFound(text);
    ReadOne("lno", text, decode);
  }

  lemma OneFound(key: string, text: string)
    requires ToLower(key) == key
    ensures forall k :: Find([Field(key, text)], k) == if k == key then Some(text) else None
  {
    forall k ensures Find([Field(key, text)], k) == if k == key then Some(text) else None {
      assert [] + [Field(key, text)] == [Field(key, text)];
      FindLast([], Field(key, text), k);
    }
  }
}
