/**
 * The shared list of monitor keys: how it is parsed, and the protocol by which any number of devices
 * write it. A device writes the whole list by compare-and-set, one write at a time; on a conflict it
 * merges the server's keys into its own and tries once more.
 */
module Manifest {
  import opened Common
  import opened OrderedSet
  import opened MonitorKey

  const MAX_MANIFEST_ENTRIES: nat := 1_000

  // ---------- Parsing ----------

  datatype Entry = Text(s: string) | Other

  /** A parsed JSON document, as far as the manifest parser looks. */
  datatype Json = Array(entries: seq<Entry>) | NotArray

  datatype ManifestError = NotANonEmptyArray | TooManyEntries | InvalidKey

  /** `JSON.stringify([...monitorKeys])`, before it becomes text. */
  function Payload(keys: seq<string>): Json {
    Array(seq(|keys|, i requires 0 <= i < |keys| => Text(keys[i])))
  }

  predicate ValidEntry(e: Entry) {
    e.Text? && IsMonitorKey(e.s)
  }

  /** The first n entries are monitor keys. */
  predicate AllValid(es: seq<Entry>, n: nat)
    requires n <= |es|
  {
    forall i :: 0 <= i < n ==> ValidEntry(es[i])
  }

  function TextOf(e: Entry): string {
    if e.Text? then e.s else ""
  }

  function Texts(es: seq<Entry>): seq<string> {
    seq(|es|, i requires 0 <= i < |es| => TextOf(es[i]))
  }

  function Parse(j: Json): Result<seq<string>, ManifestError> {
    if j.NotArray? || j.entries == [] then Err(NotANonEmptyArray)
    else if |j.entries| > MAX_MANIFEST_ENTRIES then Err(TooManyEntries)
    else if !AllValid(j.entries, |j.entries|) then Err(InvalidKey)
    else Ok(AddAll([], Texts(j.entries)))
  }

  /** The set collected from the first n entries. */
  function Collected(es: seq<Entry>, n: nat): seq<string>
    requires n <= |es|
  {
    AddAll([], Texts(es[..n]))
  }

  lemma CollectNext(es: seq<Entry>, n: nat)
    requires n < |es|
    ensures Collected(es, n + 1) == Add(Collected(es, n), TextOf(es[n]))
  {
    var longer := Texts(es[..n + 1]);
    assert longer[..|longer| - 1] == Texts(es[..n]);
  }

  lemma CollectAll(es: seq<Entry>)
    ensures Collected(es, 0) == [] && Collected(es, |es|) == AddAll([], Texts(es))
  {
    assert Texts(es[..0]) == [] && es[..|es|] == es;
  }

  /** `parseMonitorManifest`: the loop stops at the first bad entry and otherwise collects a set. */
  method ParseMonitorManifest(j: Json) returns (r: Result<seq<string>, ManifestError>)
    ensures r == Parse(j)
  {
    if j.NotArray? || j.entries == [] {
      return Err(NotANonEmptyArray);
    }
    if |j.entries| > MAX_MANIFEST_ENTRIES {
      return Err(TooManyEntries);
    }
    CollectAll(j.entries);
    var seen := CollectKeys(j.entries);
    return if seen.Some? then Ok(seen.value) else Err(InvalidKey);
  }

  /** The loop; None is its early `throw`. */
  method CollectKeys(es: seq<Entry>) returns (r: Option<seq<string>>)
    ensures r == if AllValid(es, |es|) then Some(Collected(es, |es|)) else None
  {
    var seen: seq<string> := [];
    CollectAll(es);
    for i := 0 to |es|
      invariant AllValid(es, i) && seen == Collected(es, i)
    {
      if !ValidEntry(es[i]) {
        NotAllValid(es, i);
        return None;
      }
      CollectNext(es, i);
      seen := Add(seen, es[i].s);
    }
    return Some(seen);
  }

  lemma NotAllValid(es: seq<Entry>, i: nat)
    requires i < |es| && !ValidEntry(es[i])
    ensures !AllValid(es, |es|)
  {
  }

  /** What a device may write so that it reads back: 1 to 1000 distinct well-formed keys. */
  predicate Readable(keys: seq<string>) {
    && 1 <= |keys| <= 1_000
    && Distinct(keys)
    && forall i :: 0 <= i < |keys| ==> IsMonitorKey(keys[i])
  }

  /** Writing a list and parsing it gives it back, in order, exactly when the list is readable. */
  lemma ParsePayload(keys: seq<string>)
    ensures Parse(Payload(keys)) == Ok(keys) <==> Readable(keys)
  {
    var es := Payload(keys).entries;
    if keys != [] && |keys| <= MAX_MANIFEST_ENTRIES && forall i :: 0 <= i < |keys| ==> IsMonitorKey(keys[i]) {
      assert Texts(es) == keys;
      if Distinct(keys) { AddAllDistinct(keys); }
    } else if keys != [] && |keys| <= MAX_MANIFEST_ENTRIES {
      var i :| 0 <= i < |keys| && !IsMonitorKey(keys[i]);
      assert !ValidEntry(es[i]);
    }
  }

  /** Whatever parses has only well-formed keys, each once, and loses none of the entries. */
  lemma ParseSound(j: Json)
    requires Parse(j).Ok?
    ensures Readable(Parse(j).value)
    ensures forall s :: s in Parse(j).value <==> Text(s) in j.entries
  {
    var keys := Parse(j).value;
    var texts := Texts(j.entries);
    forall s ensures s in keys <==> Text(s) in j.entries {
      assert s in keys <==> s in Elements(keys);
      assert s in texts <==> s in Elements(texts);
      if Text(s) in j.entries {
        var i :| 0 <= i < |j.entries| && j.entries[i] == Text(s);
        assert texts[i] == s;
      }
    }
    forall i | 0 <= i < |keys| ensures IsMonitorKey(keys[i]) {
      assert keys[i] in Elements(keys);
    }
    assert Texts(j.entries)[0] in Elements(keys);
    AddAllShorter([], Texts(j.entries));
  }

  lemma {:induction false} AddAllShorter<T>(s: seq<T>, xs: seq<T>)
    ensures |AddAll(s, xs)| <= |s| + |xs|
  {
    if xs != [] { AddAllShorter(s, xs[..|xs| - 1]); }
  }
}
