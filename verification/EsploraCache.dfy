/**
 * `getBlockHeader` and `getTxHex`: a lookup in the LRU cache, else a fetch that fills it. The two differ
 * only in their URL. Cached values are byte arrays, and who may still write to them matters.
 */
module EsploraCache {
  import opened Common
  import opened Decimal
  import opened Lru

  /** A settled fetch: it threw, or a status and a trimmed body arrived. */
  datatype Reply = Threw | Response(status: int, body: string)

  datatype Failure = InvalidHex | FetchFailed | BadBody

  /** `assertHex(value, label, expectedLength)` */
  predicate IsHexOf(s: string, length: nat) {
    |s| == length && length > 0 && AllHex(s)
  }

  /** What an uncached call makes of a reply. */
  function Decode(hash: string, reply: Reply): Result<Bytes, Failure> {
    if !IsHexOf(hash, 64) then Err(InvalidHex)
    else if reply.Threw? || reply.status < 200 || reply.status >= 300 then Err(FetchFailed)
    else if reply.body == "" || !AllHex(reply.body) || FromHex(reply.body).None? then Err(BadBody)
    else Ok(FromHex(reply.body).value)
  }

  /**
   * Bytes come out of a lookup exactly of a 64-digit hash, a status from 200 to 299 and a body that is
   * those bytes in lower-case hexadecimal, at least one; any other status is a failed fetch.
   */
  lemma DecodesIff(hash: string, reply: Reply, b: Bytes)
    ensures Decode(hash, reply) == Ok(b) <==>
      |hash| == 64 && AllHex(hash) && reply.Response? && 200 <= reply.status <= 299 && b != [] && reply.body == ToHex(b)
    ensures |hash| == 64 && AllHex(hash) && (reply.Threw? || !(200 <= reply.status <= 299)) ==>
      Decode(hash, reply) == Err(FetchFailed)
  {
    if Decode(hash, reply) == Ok(b) {
      HexInverse(reply.body);
    }
    HexRoundTrip(b);
    if b != [] { assert |ToHex(b)| == 2 * |b|; }
  }

  /** A source where a hash fixes its bytes: whatever decodes for it is the truth. */
  ghost predicate Honest(truth: string -> Bytes, hash: string, reply: Reply) {
    Decode(hash, reply).Ok? ==> Decode(hash, reply).value == truth(hash)
  }

  // ---------- On histories ----------

  ghost predicate OnlyTruth(ops: seq<Op<Bytes>>, truth: string -> Bytes) {
    forall i :: 0 <= i < |ops| && ops[i].Set? ==> ops[i].value == truth(ops[i].key)
  }

  lemma {:induction false} LastSetTrue(ops: seq<Op<Bytes>>, truth: string -> Bytes, key: string)
    requires OnlyTruth(ops, truth)
    ensures LastSet(ops, key).Some? ==> LastSet(ops, key).value == truth(key)
  {
    if ops != [] { LastSetTrue(ops[..|ops| - 1], truth, key); }
  }

  lemma FilledTrue(cap: nat, ops: seq<Op<Bytes>>, truth: string -> Bytes, key: string)
    requires OnlyTruth(ops, truth)
    ensures Lookup(Cache(cap, ops), key).Some? ==> Lookup(Cache(cap, ops), key).value == truth(key)
  {
    CachedValue(cap, ops, key);
    LastSetTrue(ops, truth, key);
  }

  /** What a caller was given. */
  datatype Answer = Answer(hash: string, r: Result<Bytes, Failure>)

  /** Callers in flight: the cache's history, the hashes being fetched, and the answers so far. */
  datatype Calls = Calls(ops: seq<Op<Bytes>>, pending: seq<string>, answers: seq<Answer>)

  datatype Event = Ask(hash: string) | Arrive(i: nat, reply: Reply)

  function OnAsk(cap: nat, s: Calls, hash: string): Calls {
    if !IsHexOf(hash, 64) then s.(answers := s.answers + [Answer(hash, Err(InvalidHex))])
    else
      var cached := Lookup(Cache(cap, s.ops), hash);
      var s' := s.(ops := s.ops + [Op.Get(hash)]);
      if cached.Some? then s'.(answers := s.answers + [Answer(hash, Ok(cached.value))])
      else s'.(pending := s.pending + [hash])
  }

  /** One of the fetches settles; the others stay in flight. */
  function OnArrive(s: Calls, i: nat, reply: Reply): Calls
    requires i < |s.pending|
  {
    var hash := s.pending[i];
    var r := Decode(hash, reply);
    Calls(if r.Ok? then s.ops + [Op.Set(hash, r.value)] else s.ops,
          s.pending[..i] + s.pending[i + 1..],
          s.answers + [Answer(hash, r)])
  }

  function Step(cap: nat, s: Calls, e: Event): Calls {
    match e
    case Ask(hash) => OnAsk(cap, s, hash)
    case Arrive(i, reply) => if i < |s.pending| then OnArrive(s, i, reply) else s
  }

  function Steps(cap: nat, es: seq<Event>): Calls {
    if es == [] then Calls([], [], []) else Step(cap, Steps(cap, es[..|es| - 1]), es[|es| - 1])
  }

  /** Every reply of the run is one the source may give for its hash. */
  ghost predicate HonestRun(cap: nat, es: seq<Event>, truth: string -> Bytes) {
    es == []
    || (&& HonestRun(cap, es[..|es| - 1], truth)
        && var s, e := Steps(cap, es[..|es| - 1]), es[|es| - 1];
        e.Arrive? && e.i < |s.pending| ==> Honest(truth, s.pending[e.i], e.reply))
  }

  ghost predicate OnlyTrueAnswers(s: Calls, truth: string -> Bytes) {
    forall i :: 0 <= i < |s.answers| && s.answers[i].r.Ok? ==> s.answers[i].r.value == truth(s.answers[i].hash)
  }

  lemma AskTrue(cap: nat, s: Calls, hash: string, truth: string -> Bytes)
    requires OnlyTruth(s.ops, truth) && OnlyTrueAnswers(s, truth)
    ensures OnlyTruth(OnAsk(cap, s, hash).ops, truth) && OnlyTrueAnswers(OnAsk(cap, s, hash), truth)
  {
    FilledTrue(cap, s.ops, truth, hash);
  }

  /**
   * However the lookups and fetches of any number of callers interleave, whoever is answered with bytes,
   * by a hit or by a fetch, gets those the hash stands for: what an uncached fetch would have given.
   */
  lemma {:induction false} HitsAreTrue(cap: nat, es: seq<Event>, truth: string -> Bytes)
    requires HonestRun(cap, es, truth)
    ensures OnlyTruth(Steps(cap, es).ops, truth) && OnlyTrueAnswers(Steps(cap, es), truth)
  {
    if es != [] {
      var s, e := Steps(cap, es[..|es| - 1]), es[|es| - 1];
      HitsAreTrue(cap, es[..|es| - 1], truth);
      if e.Ask? { AskTrue(cap, s, e.hash, truth); }
    }
  }

  /** What a fetch has brought is answered from the cache when it is asked for next, without another fetch. */
  lemma FilledThenHit(cap: nat, s: Calls, i: nat, reply: Reply)
    requires i < |s.pending| && Decode(s.pending[i], reply).Ok?
    ensures var hash, b := s.pending[i], Decode(s.pending[i], reply).value;
      var t := OnAsk(cap, OnArrive(s, i, reply), hash);
      && t.pending == OnArrive(s, i, reply).pending
      && t.answers == s.answers + [Answer(hash, Ok(b)), Answer(hash, Ok(b))]
  {
    var hash, b := s.pending[i], Decode(s.pending[i], reply).value;
    SetThenCached(cap, s.ops, hash, b);
  }

  lemma SetThenCached(cap: nat, ops: seq<Op<Bytes>>, key: string, value: Bytes)
    ensures Lookup(Cache(cap, ops + [Op.Set(key, value)]), key) == Some(value)
  {
    var all := ops + [Op.Set(key, value)];
    assert all[..|all| - 1] == ops;
    assert Touched(cap, all) == Touched(cap, ops) + [key];
    assert Since(Touched(cap, all), key) == {};
    CachedIff(cap, all, key);
    CachedValue(cap, all, key);
  }

  // ---------- On the heap ----------

  const LRU_MAX_ENTRIES: nat := 256

  /** The arrays the cache holds. */
  ghost function Arrays(m: Entries<array<byte>>): set<array<byte>> {
    set e | e in m :: e.1
  }

  class Client {
    const cache: LruCache<array<byte>>

    constructor ()
      ensures fresh(cache) && cache.entries == [] && cache.maxEntries == 256
    {
      cache := new LruCache(LRU_MAX_ENTRIES);
    }

    /** Every cached array holds the bytes its key stands for. */
    ghost predicate Valid(truth: string -> Bytes)
      reads this, cache, Arrays(cache.entries)
    {
      forall e :: e in cache.entries ==> e.1[..] == truth(e.0)
    }

    /**
     * `getBlockHeader`, `getTxHex`. The answer is the uncached one. A hit hands out a copy, but a miss
     * hands out the very array it caches.
     */
    method GetBytes(hash: string, reply: Reply, ghost truth: string -> Bytes)
      returns (r: Result<array<byte>, Failure>, ghost hit: bool)
      requires Valid(truth) && Honest(truth, hash, reply)
      modifies cache`entries
      ensures Valid(truth)
      ensures hit == (IsHexOf(hash, 64) && Lookup(old(cache.entries), hash).Some?)
      ensures hit ==> r.Ok?
      ensures !hit ==> (r.Ok? <==> Decode(hash, reply).Ok?) && (r.Err? ==> r.error == Decode(hash, reply).error)
      ensures r.Ok? ==> fresh(r.value) && r.value[..] == truth(hash)
      ensures r.Ok? ==> (r.value in Arrays(cache.entries) <==> !hit)
      ensures hit ==> cache.entries == Got(old(cache.entries), hash)
      ensures !hit && r.Ok? ==> cache.entries == Stored(old(cache.entries), cache.maxEntries, hash, r.value)
      ensures r.Err? ==> cache.entries == old(cache.entries)
    {
      hit := false;
      if !IsHexOf(hash, 64) {
        return Err(InvalidHex), false;
      }
      var cached := cache.Get(hash);
      hit := cached.Some?;
      GotSame(old(cache.entries), hash);
      if cached.Some? {
        LookupIn(old(cache.entries), hash);
        var copy := Slice(cached.value);
        return Ok(copy), true;
      }
      if reply.Threw? || reply.status < 200 || reply.status >= 300 {
        return Err(FetchFailed), false;
      }
      var hex := reply.body;
      if hex == "" || !AllHex(hex) || FromHex(hex).None? {
        return Err(BadBody), false;
      }
      var decoded := FromHex(hex).value;
      var bytes := new byte[|decoded|](i requires 0 <= i < |decoded| => decoded[i]);
      assert bytes[..] == decoded;
      StoredFrom(cache.entries, cache.maxEntries, hash, bytes);
      cache.Set(hash, bytes);
      return Ok(bytes), false;
    }
  }

  /** `value.slice()` */
  method Slice(a: array<byte>) returns (b: array<byte>)
    ensures fresh(b) && b[..] == a[..]
  {
    b := new byte[a.Length](i requires 0 <= i < a.Length reads a => a[i]);
  }

  // ---------- Entries survive the cache's moves ----------

  lemma {:induction false} DeleteFrom<V>(m: Entries<V>, key: string)
    ensures forall e :: e in Delete(m, key) ==> e in m
  {
    if m != [] { DeleteFrom(m[1..], key); }
  }

  lemma {:induction false} LookupIn<V>(m: Entries<V>, key: string)
    ensures Lookup(m, key).Some? ==> (key, Lookup(m, key).value) in m
  {
    if m != [] { LookupIn(m[1..], key); }
  }

  lemma GotSame<V>(m: Entries<V>, key: string)
    ensures forall e :: e in Got(m, key) ==> e in m
  {
    DeleteFrom(m, key);
    LookupIn(m, key);
  }

  lemma StoredFrom<V>(m: Entries<V>, cap: nat, key: string, value: V)
    ensures forall e :: e in Stored(m, cap, key, value) ==> e in m || e == (key, value)
    ensures (key, value) in Stored(m, cap, key, value)
  {
    DeleteFrom(m, key);
  }

  lemma {:induction false} AbsentKey<V>(m: Entries<V>, key: string)
    requires Lookup(m, key).None?
    ensures forall e :: e in m ==> e.0 != key
  {
    if m != [] { AbsentKey(m[1..], key); }
  }

  /**
   * The promise needs callers that leave the array of a miss alone. A caller writes one byte into it: the
   * next hit, with an honest source and no eviction, is right exactly when that byte was there already.
   */
  method CallerWritePoisons(client: Client, hash: string, reply: Reply, i: nat, x: byte, ghost truth: string -> Bytes)
    returns (second: array<byte>)
    requires client.Valid(truth) && Honest(truth, hash, reply)
    requires IsHexOf(hash, 64) && Lookup(client.cache.entries, hash).None?
    requires Decode(hash, reply).Ok? && i < |Decode(hash, reply).value|
    modifies client.cache`entries
    ensures second[..] == truth(hash)[i := x]
    ensures second[..] == truth(hash) <==> x == truth(hash)[i]
  {
    ghost var before := client.cache.entries;
    AbsentKey(before, hash);
    var r, _ := client.GetBytes(hash, reply, truth);
    var first := r.value;
    StoredFrom(before, client.cache.maxEntries, hash, first);
    assert first.Length == |first[..]|;
    first[i] := x;
    ghost var written := first[..];
    assert written == truth(hash)[i := x];
    assert written[i] == x;
    ghost var poisoned := (k: string) => if k == hash then written else truth(k);
    forall e | e in client.cache.entries ensures e.1[..] == poisoned(e.0) {
      if e != (hash, first) {
        assert e in before;
        assert e.1 != first;
      }
    }
    LookupStored(before, client.cache.maxEntries, hash, first);
    ghost var hit;
    // The reply cannot matter: the cache answers.
    r, hit := client.GetBytes(hash, Threw, poisoned);
    second := r.value;
  }

  lemma LookupStored<V>(m: Entries<V>, cap: nat, key: string, value: V)
    requires Lookup(m, key).None?
    ensures Lookup(Stored(m, cap, key, value), key) == Some(value)
  {
    LookupAppend(m, key, value, key);
    if m != [] { LookupAppend(m[1..], key, value, key); }
  }
}
