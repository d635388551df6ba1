/** The LRU cache built on a JavaScript `Map`'s insertion order. */
module Lru {
  import opened Common
  import opened OrderedSet

  /** A `Map` as the sequence of its entries, oldest insertion first. */
  type Entries<V> = seq<(string, V)>

  function Keys<V>(m: Entries<V>): (r: seq<string>)
    ensures |r| == |m|
  {
    seq(|m|, i requires 0 <= i < |m| => m[i].0)
  }

  function Lookup<V>(m: Entries<V>, key: string): Option<V> {
    if m == [] then None else if m[0].0 == key then Some(m[0].1) else Lookup(m[1..], key)
  }

  function Delete<V>(m: Entries<V>, key: string): Entries<V> {
    if m == [] then [] else if m[0].0 == key then m[1..] else [m[0]] + Delete(m[1..], key)
  }

  // ---------- The two operations ----------

  function Got<V>(m: Entries<V>, key: string): Entries<V> {
    match Lookup(m, key)
    case None => m
    case Some(v) => Delete(m, key) + [(key, v)]
  }

  function Stored<V>(m: Entries<V>, maxEntries: nat, key: string, value: V): Entries<V> {
    if Lookup(m, key).Some? then Delete(m, key) + [(key, value)]
    else if |m| >= maxEntries && m != [] then m[1..] + [(key, value)]
    else m + [(key, value)]
  }

  /** `LruCache`; `entries` is its `map`. */
  class LruCache<V> {
    const maxEntries: nat
    var entries: Entries<V>

    constructor (maxEntries: nat)
      ensures this.maxEntries == maxEntries && entries == []
    {
      this.maxEntries, entries := maxEntries, [];
    }

    method Get(key: string) returns (value: Option<V>)
      modifies this`entries
      ensures value == Lookup(old(entries), key) && entries == Got(old(entries), key)
    {
      value := Lookup(entries, key);
      if value.Some? {
        entries := Delete(entries, key);
        entries := entries + [(key, value.value)];
      }
    }

    /** On an empty map there is no oldest key, so nothing is evicted even at capacity zero. */
    method Set(key: string, value: V)
      modifies this`entries
      ensures entries == Stored(old(entries), maxEntries, key, value)
    {
      if Lookup(entries, key).Some? {
        entries := Delete(entries, key);
      } else if |entries| >= maxEntries && entries != [] {
        entries := entries[1..];
      }
      entries := entries + [(key, value)];
    }
  }

  // ---------- Histories ----------

  datatype Op<V> = Get(key: string) | Set(key: string, value: V)

  function Apply<V>(m: Entries<V>, cap: nat, op: Op<V>): Entries<V> {
    match op
    case Get(key) => Got(m, key)
    case Set(key, value) => Stored(m, cap, key, value)
  }

  function Cache<V>(cap: nat, ops: seq<Op<V>>): Entries<V> {
    if ops == [] then [] else Apply(Cache(cap, ops[..|ops| - 1]), cap, ops[|ops| - 1])
  }

  /** The keys touched, in order: every set, and every get that hits. */
  function Touched<V>(cap: nat, ops: seq<Op<V>>): seq<string> {
    if ops == [] then []
    else
      var before, op := ops[..|ops| - 1], ops[|ops| - 1];
      Touched(cap, before)
        + if op.Set? || Lookup(Cache(cap, before), op.key).Some? then [op.key] else []
  }

  /** The value a key was last set to. */
  function LastSet<V>(ops: seq<Op<V>>, key: string): Option<V> {
    if ops == [] then None
    else
      var op := ops[|ops| - 1];
      if op.Set? && op.key == key then Some(op.value) else LastSet(ops[..|ops| - 1], key)
  }

  /** The keys touched after the last touch of `key`. */
  function Since(log: seq<string>, key: string): set<string> {
    if log == [] || log[|log| - 1] == key then {} else Since(log[..|log| - 1], key) + {log[|log| - 1]}
  }

  // ---------- The recency stack ----------

  function Without(s: seq<string>, key: string): (r: seq<string>)
    ensures Elements(r) == Elements(s) - {key}
    ensures Distinct(s) ==> Distinct(r)
  {
    if s == [] then []
    else
      assert Elements(s) == Elements(s[..|s| - 1]) + {s[|s| - 1]};
      var front := Without(s[..|s| - 1], key);
      if s[|s| - 1] == key then front
      else
        assert Elements(front + [s[|s| - 1]]) == Elements(front) + {s[|s| - 1]};
        assert Distinct(s) ==> s[|s| - 1] !in Elements(s[..|s| - 1]);
        front + [s[|s| - 1]]
  }

  /** All keys ever touched, least recently touched first. */
  function Stack(log: seq<string>): (r: seq<string>)
    ensures Elements(r) == Elements(log) && Distinct(r)
  {
    if log == [] then []
    else
      var front, last := log[..|log| - 1], log[|log| - 1];
      assert Elements(log) == Elements(front) + {last};
      var rest := Without(Stack(front), last);
      assert last !in Elements(rest);
      assert Elements(rest + [last]) == Elements(rest) + {last};
      rest + [last]
  }

  function Newest(s: seq<string>, n: nat): seq<string> {
    if |s| <= n then s else s[|s| - n..]
  }

  /** Capacity zero still keeps one entry. */
  function Capacity(cap: nat): nat {
    if cap == 0 then 1 else cap
  }

  lemma {:induction false} WithoutJoin(a: seq<string>, b: seq<string>, key: string)
    ensures Without(a + b, key) == Without(a, key) + Without(b, key)
  {
    if b == [] {
      assert a + b == a;
    } else {
      assert (a + b)[..|a + b| - 1] == a + b[..|b| - 1];
      WithoutJoin(a, b[..|b| - 1], key);
    }
  }

  lemma {:induction false} WithoutAbsent(s: seq<string>, key: string)
    requires key !in s
    ensures Without(s, key) == s
  {
    if s != [] { WithoutAbsent(s[..|s| - 1], key); }
  }

  lemma {:induction false} WithoutLength(s: seq<string>, key: string)
    requires Distinct(s) && key in s
    ensures |Without(s, key)| == |s| - 1
  {
    var front := s[..|s| - 1];
    if s[|s| - 1] == key { WithoutAbsent(front, key); } else { WithoutLength(front, key); }
  }

  lemma Suffix(a: seq<string>, b: seq<string>, n: nat)
    requires |b| == n || (|b| < n && a == [])
    ensures Newest(a + b, n) == b
  {
  }

  lemma Halves(s: seq<string>, n: nat)
    ensures s == s[..|s| - |Newest(s, n)|] + Newest(s, n)
    ensures |s| > n ==> |Newest(s, n)| == n
    ensures |s| <= n ==> s[..|s| - |Newest(s, n)|] == []
  {
  }

  lemma TouchedHalves(older: seq<string>, newer: seq<string>, key: string, n: nat)
    requires key !in older && Distinct(newer) && key in newer && (|newer| == n || (|newer| < n && older == []))
    ensures Newest(Without(older + newer, key) + [key], n) == Without(newer, key) + [key]
  {
    WithoutJoin(older, newer, key);
    WithoutAbsent(older, key);
    WithoutLength(newer, key);
    var top := Without(newer, key) + [key];
    assert Without(older + newer, key) + [key] == older + top;
    Suffix(older, top, n);
  }

  lemma DistinctHalves(s: seq<string>, i: nat, key: string)
    requires Distinct(s) && i <= |s| && key in s[i..]
    ensures key !in s[..i] && Distinct(s[i..])
  {
  }

  /** Touching a key that is among the newest moves it to the end of them. */
  lemma TouchHit(s: seq<string>, key: string, n: nat)
    requires Distinct(s) && key in Newest(s, n)
    ensures Newest(Without(s, key) + [key], n) == Without(Newest(s, n), key) + [key]
  {
    Halves(s, n);
    var i := |s| - |Newest(s, n)|;
    assert Newest(s, n) == s[i..];
    DistinctHalves(s, i, key);
    TouchedHalves(s[..i], Newest(s, n), key, n);
  }

  /** Touching any other key pushes out the oldest of them, if they are full. */
  lemma TouchMiss(s: seq<string>, key: string, n: nat)
    requires Distinct(s) && key !in Newest(s, n) && n > 0
    ensures var newer := Newest(s, n);
      Newest(Without(s, key) + [key], n) == (if |newer| >= n then newer[1..] else newer) + [key]
  {
    Halves(s, n);
    var older, newer := s[..|s| - |Newest(s, n)|], Newest(s, n);
    WithoutJoin(older, newer, key);
    WithoutAbsent(newer, key);
    PushOut(Without(older, key), newer, key, n);
  }

  lemma PushOut(older: seq<string>, newer: seq<string>, key: string, n: nat)
    requires n > 0 && (|newer| == n || (|newer| < n && older == []))
    ensures Newest(older + newer + [key], n) == (if |newer| >= n then newer[1..] else newer) + [key]
  {
    if |newer| == n {
      Suffix(older + [newer[0]], newer[1..] + [key], n);
      assert older + newer + [key] == (older + [newer[0]]) + (newer[1..] + [key]);
    } else {
      assert older + newer + [key] == newer + [key];
    }
  }

  // ---------- The cache is the top of the stack ----------

  lemma {:induction false} LookupKeys<V>(m: Entries<V>, key: string)
    ensures Lookup(m, key).Some? <==> key in Keys(m)
  {
    if m != [] {
      LookupKeys(m[1..], key);
      assert Keys(m) == [m[0].0] + Keys(m[1..]);
    }
  }

  /** In a map each key occurs once. */
  lemma DistinctTail<V>(m: Entries<V>)
    requires m != [] && Distinct(Keys(m))
    ensures Keys(m) == [m[0].0] + Keys(m[1..]) && Distinct(Keys(m[1..])) && Lookup(m[1..], m[0].0).None?
    ensures Keys(m)[1..] == Keys(m[1..]) && m[0].0 !in Keys(m[1..])
  {
    assert Keys(m) == [m[0].0] + Keys(m[1..]);
    assert Keys(m)[1..] == Keys(m[1..]);
    forall j | 0 <= j < |Keys(m[1..])| ensures Keys(m[1..])[j] != m[0].0 {
      assert Keys(m)[0] != Keys(m)[j + 1];
    }
    LookupKeys(m[1..], m[0].0);
  }

  lemma {:induction false} DeleteKeys<V>(m: Entries<V>, key: string)
    requires Distinct(Keys(m))
    ensures Keys(Delete(m, key)) == Without(Keys(m), key)
  {
    if m != [] {
      var k, rest := m[0].0, m[1..];
      DistinctTail(m);
      WithoutJoin([k], Keys(rest), key);
      if k == key {
        WithoutAbsent(Keys(rest), key);
        assert Without([k], key) == [];
      } else {
        DeleteKeys(rest, key);
        WithoutAbsent([k], key);
        assert Keys([m[0]] + Delete(rest, key)) == [k] + Keys(Delete(rest, key));
      }
    }
  }

  lemma KeysAppend<V>(m: Entries<V>, key: string, value: V)
    ensures Keys(m + [(key, value)]) == Keys(m) + [key]
  {
  }

  lemma HitStep<V>(m: Entries<V>, s: seq<string>, n: nat, key: string, value: V)
    requires Distinct(s) && Keys(m) == Newest(s, n) && Lookup(m, key).Some?
    ensures Keys(Delete(m, key) + [(key, value)]) == Newest(Without(s, key) + [key], n)
  {
    Halves(s, n);
    LookupKeys(m, key);
    DeleteKeys(m, key);
    TouchHit(s, key, n);
    KeysAppend(Delete(m, key), key, value);
  }

  lemma MissStep<V>(m: Entries<V>, s: seq<string>, n: nat, key: string, value: V)
    requires n > 0 && Distinct(s) && Keys(m) == Newest(s, n) && Lookup(m, key).None?
    ensures Keys((if |m| >= n then m[1..] else m) + [(key, value)]) == Newest(Without(s, key) + [key], n)
  {
    Halves(s, n);
    LookupKeys(m, key);
    TouchMiss(s, key, n);
    KeysAppend(m, key, value);
    if |m| >= n {
      DistinctTail(m);
      KeysAppend(m[1..], key, value);
    }
  }

  /** One touch of the cache is one touch of the stack. */
  lemma TouchStep<V>(m: Entries<V>, cap: nat, s: seq<string>, key: string, value: V)
    requires Distinct(s) && Keys(m) == Newest(s, Capacity(cap))
    ensures Keys(Stored(m, cap, key, value)) == Newest(Without(s, key) + [key], Capacity(cap))
    ensures Lookup(m, key).Some? ==> Keys(Got(m, key)) == Newest(Without(s, key) + [key], Capacity(cap))
  {
    if Lookup(m, key).Some? {
      HitStep(m, s, Capacity(cap), key, value);
      HitStep(m, s, Capacity(cap), key, Lookup(m, key).value);
    } else {
      MissStep(m, s, Capacity(cap), key, value);
    }
  }

  lemma StackSnoc(log: seq<string>, key: string)
    ensures Stack(log + [key]) == Without(Stack(log), key) + [key]
  {
    assert (log + [key])[..|log + [key]| - 1] == log;
  }

  lemma {:induction false} CacheIsNewest<V>(cap: nat, ops: seq<Op<V>>)
    ensures Keys(Cache(cap, ops)) == Newest(Stack(Touched(cap, ops)), Capacity(cap))
  {
    if ops != [] {
      var before, op := ops[..|ops| - 1], ops[|ops| - 1];
      var m, s := Cache(cap, before), Stack(Touched(cap, before));
      CacheIsNewest(cap, before);
      if op.Set? {
        TouchStep(m, cap, s, op.key, op.value);
        StackSnoc(Touched(cap, before), op.key);
      } else if Lookup(m, op.key).Some? {
        TouchStep(m, cap, s, op.key, Lookup(m, op.key).value);
        StackSnoc(Touched(cap, before), op.key);
      } else {
        assert Touched(cap, before) + [] == Touched(cap, before);
      }
    }
  }

  lemma WithoutAround(a: seq<string>, key: string, b: seq<string>, last: string)
    requires key != last
    ensures Without(a + [key] + b, last) + [last] == Without(a, last) + [key] + (Without(b, last) + [last])
  {
    WithoutJoin(a + [key], b, last);
    WithoutJoin(a, [key], last);
    WithoutAbsent([key], last);
  }

  lemma ElementsSnoc(s: seq<string>, x: string)
    ensures Elements(s + [x]) == Elements(s) + {x}
  {
  }

  lemma SinceSnoc(front: seq<string>, last: string, key: string)
    requires last != key
    ensures Since(front + [last], key) == Since(front, key) + {last}
  {
    var log := front + [last];
    assert log[..|log| - 1] == front;
  }

  lemma SinceNext(front: seq<string>, last: string, key: string, b: seq<string>)
    requires last != key && Elements(b) == Since(front, key)
    ensures Since(front + [last], key) == Elements(Without(b, last) + [last])
  {
    SinceSnoc(front, last, key);
    ElementsSnoc(Without(b, last), last);
  }

  /** Where a touched key sits: everything touched since lies after it on the stack. */
  lemma {:induction false} StackTail(log: seq<string>, key: string) returns (a: seq<string>, b: seq<string>)
    requires key in log
    ensures Stack(log) == a + [key] + b && Elements(b) == Since(log, key)
  {
    var front, last := log[..|log| - 1], log[|log| - 1];
    assert log == front + [last];
    StackSnoc(front, last);
    if last == key {
      a, b := Without(Stack(front), key), [];
    } else {
      var c, d := StackTail(front, key);
      a, b := Without(c, last), Without(d, last) + [last];
      WithoutAround(c, key, d, last);
      SinceNext(front, last, key, d);
    }
  }

  /** The position of a key in a stack decides whether it is among the newest. */
  lemma InNewest(a: seq<string>, key: string, b: seq<string>, n: nat)
    requires Distinct(a + [key] + b)
    ensures key in Newest(a + [key] + b, n) <==> |b| < n
  {
    var s := a + [key] + b;
    var newer := Newest(s, n);
    assert s[|a|] == key;
    if |b| < n {
      assert newer[|newer| - |b| - 1] == key;
    } else {
      forall i | 0 <= i < |newer| ensures newer[i] != key {
        assert newer[i] == s[|s| - |newer| + i];
      }
    }
  }

  lemma DistinctEnd(a: seq<string>, b: seq<string>)
    requires Distinct(a + b)
    ensures Distinct(b)
  {
    forall i, j | 0 <= i < j < |b| ensures b[i] != b[j] {
      assert (a + b)[|a| + i] == b[i] && (a + b)[|a| + j] == b[j];
    }
  }

  /**
   * After any sequence of gets and sets a key is cached exactly when it was touched and fewer than
   * `capacity` different keys have been touched since.
   */
  lemma CachedIff<V>(cap: nat, ops: seq<Op<V>>, key: string)
    ensures var log := Touched(cap, ops);
      Lookup(Cache(cap, ops), key).Some? <==> key in log && |Since(log, key)| < Capacity(cap)
  {
    var log := Touched(cap, ops);
    CacheIsNewest(cap, ops);
    LookupKeys(Cache(cap, ops), key);
    if key in log {
      var a, b := StackTail(log, key);
      DistinctEnd(a + [key], b);
      DistinctCount(b);
      InNewest(a, key, b, Capacity(cap));
    } else {
      Halves(Stack(log), Capacity(cap));
      assert key !in Elements(Stack(log));
    }
  }

  lemma {:induction false} LookupAppend<V>(m: Entries<V>, key: string, value: V, j: string)
    ensures Lookup(m + [(key, value)], j) ==
      if Lookup(m, j).Some? then Lookup(m, j) else if j == key then Some(value) else None
  {
    if m == [] {
    } else {
      assert (m + [(key, value)])[1..] == m[1..] + [(key, value)];
      LookupAppend(m[1..], key, value, j);
    }
  }

  lemma {:induction false} LookupDelete<V>(m: Entries<V>, key: string, j: string)
    requires Distinct(Keys(m))
    ensures Lookup(Delete(m, key), j) == if j == key then None else Lookup(m, j)
  {
    if m != [] {
      DistinctTail(m);
      if m[0].0 != key { LookupDelete(m[1..], key, j); }
    }
  }

  /** And what is cached under a key is always what it was last set to. */
  lemma {:induction false} CachedValue<V>(cap: nat, ops: seq<Op<V>>, key: string)
    ensures Lookup(Cache(cap, ops), key).Some? ==> Lookup(Cache(cap, ops), key) == LastSet(ops, key)
  {
    if ops != [] {
      var before, op := ops[..|ops| - 1], ops[|ops| - 1];
      var m := Cache(cap, before);
      CachedValue(cap, before, key);
      CacheIsNewest(cap, before);
      LookupDelete(m, op.key, key);
      match op
      case Get(k) =>
        if Lookup(m, k).Some? { LookupAppend(Delete(m, k), k, Lookup(m, k).value, key); }
      case Set(k, v) =>
        LookupAppend(Delete(m, k), k, v, key);
        LookupAppend(m, k, v, key);
        if m != [] {
          LookupAppend(m[1..], k, v, key);
          DistinctTail(m);
        }
    }
  }
}
