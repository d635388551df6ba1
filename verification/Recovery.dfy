/**
 * Restoring an empty device from VSS: the manifest, the monitors in chunks of ten, the ChannelManager,
 * the known peers, and the rollback when any step fails.
 */
module Recovery {
  import opened Common
  import opened OrderedSet
  import opened MonitorKey
  import opened Manifest

  const CHUNK: nat := 10
  const MIN_CM_BYTES: nat := 32
  const MONITOR_MANIFEST_KEY: string := "_monitor_keys"
  const KNOWN_PEERS_VSS_KEY: string := "_known_peers"

  datatype GetReply<+V> = Failed | Missing | Found(value: V, version: nat)

  /**
   * How the outside answers during one recovery: each VSS get, whether a blob deserializes, each
   * IndexedDB write, whether the clock has run out before the chunk that starts at an index, the
   * known-peers step as a whole, and the two rollback deletes. A write that fails leaves no row: the
   * promise rejects only when its transaction has failed, and a failed transaction is aborted.
   */
  datatype Env = Env(
    manifest: GetReply<Json>,
    monitor: string -> GetReply<Bytes>,
    readable: Bytes -> bool,
    putMonitor: string -> bool,
    late: nat -> bool,
    cm: GetReply<Bytes>,
    putCm: bool,
    peersOk: bool,
    peersVersion: Option<nat>,
    deleteMonitors: bool,
    deleteCm: bool)

  /** IndexedDB's two stores and what the rest of start-up is told. */
  datatype Outcome = Outcome(
    monitors: map<string, Bytes>,
    cm: Option<Bytes>,
    keys: seq<string>,
    versions: map<string, nat>,
    cmVersion: nat)

  const Empty := Outcome(map[], None, [], map[], 0)

  // ---------- What the block achieves ----------

  function ChunkEnd(keys: seq<string>, i: nat): nat {
    if i + CHUNK <= |keys| then i + CHUNK else |keys|
  }

  predicate Good(env: Env, key: string) {
    env.monitor(key).Found? && env.readable(env.monitor(key).value) && env.putMonitor(key)
  }

  /** How many of keys[i..hi] are written before the first that is missing, unreadable or unwritable. */
  function GoodUpTo(env: Env, keys: seq<string>, i: nat, hi: nat): (r: nat)
    requires i <= hi <= |keys|
    ensures i <= r <= hi
    ensures forall j :: i <= j < r ==> Good(env, keys[j])
    ensures r < hi ==> !Good(env, keys[r])
    decreases hi - i
  {
    if i == hi || !Good(env, keys[i]) then i else GoodUpTo(env, keys, i + 1, hi)
  }

  /** A chunk is fetched in full before any of it is written. */
  predicate Fetched(env: Env, keys: seq<string>, i: nat, hi: nat)
    requires i <= hi <= |keys|
  {
    forall j :: i <= j < hi ==> env.monitor(keys[j]) != Failed
  }

  /** How many monitors have been written when the download ends or throws, from the chunk at i on. */
  function Written(env: Env, keys: seq<string>, i: nat): (r: nat)
    requires i <= |keys|
    ensures i <= r <= |keys|
    decreases |keys| - i
  {
    if i == |keys| then i
    else
      var hi := ChunkEnd(keys, i);
      if env.late(i) || !Fetched(env, keys, i, hi) then i
      else
        var r := GoodUpTo(env, keys, i, hi);
        if r < hi then r else Written(env, keys, hi)
  }

  /** No chunk is late and every listed monitor is there, readable and writable. */
  ghost predicate Downloadable(env: Env, keys: seq<string>) {
    && (forall i :: 0 <= i < |keys| && i % 10 == 0 ==> !env.late(i))
    && (forall j :: 0 <= j < |keys| ==> Good(env, keys[j]))
  }

  lemma {:induction false} WrittenAll(env: Env, keys: seq<string>, i: nat)
    requires i <= |keys| && (i % 10 == 0 || i == |keys|)
    requires forall j :: 0 <= j < i ==> Good(env, keys[j])
    requires forall j :: 0 <= j < i && j % 10 == 0 ==> !env.late(j)
    ensures Written(env, keys, i) == |keys| <==> Downloadable(env, keys)
    decreases |keys| - i
  {
    if i < |keys| {
      var hi := ChunkEnd(keys, i);
      if !env.late(i) && Fetched(env, keys, i, hi) && GoodUpTo(env, keys, i, hi) == hi {
        forall j | i < j < hi ensures j % 10 != 0 {
        }
        WrittenAll(env, keys, hi);
      }
    }
  }

  lemma {:induction false} WrittenGood(env: Env, keys: seq<string>, i: nat)
    requires i <= |keys|
    ensures forall j :: i <= j < Written(env, keys, i) ==> Good(env, keys[j])
    decreases |keys| - i
  {
    if i < |keys| && !env.late(i) && Fetched(env, keys, i, ChunkEnd(keys, i)) {
      if GoodUpTo(env, keys, i, ChunkEnd(keys, i)) == ChunkEnd(keys, i) { WrittenGood(env, keys, ChunkEnd(keys, i)); }
    }
  }

  /**
   * Nothing of a chunk is written before all of it has arrived in time: if the writing stops inside the
   * chunk that starts at c, with something of it written, the chunk was not late and every get of it worked.
   */
  lemma {:induction false} FetchedBeforeWritten(env: Env, keys: seq<string>, i: nat)
    requires i <= |keys| && (i % 10 == 0 || i == |keys|)
    ensures var n := Written(env, keys, i);
      var c := n - n % 10;
      i <= c < n ==>
        !env.late(c) && forall j :: c <= j < |keys| && j < c + 10 ==> env.monitor(keys[j]) != Failed
    decreases |keys| - i
  {
    if i < |keys| {
      var hi := ChunkEnd(keys, i);
      if !env.late(i) && Fetched(env, keys, i, hi) {
        var r := GoodUpTo(env, keys, i, hi);
        if r == hi { FetchedBeforeWritten(env, keys, hi); }
        ChunkOf(i, if r == hi then Written(env, keys, hi) else r);
      }
    }
  }

  /** The chunk in which n lies: the one at i, or a later one. */
  lemma ChunkOf(i: nat, n: nat)
    requires i % 10 == 0 && i <= n
    ensures n - n % 10 >= i && (n < i + 10 ==> n - n % 10 == i) && (n >= i + 10 ==> n - n % 10 >= i + 10)
  {
  }

  function Blob(env: Env, key: string): Bytes {
    if env.monitor(key).Found? then env.monitor(key).value else []
  }

  function BlobVersion(env: Env, key: string): nat {
    if env.monitor(key).Found? then env.monitor(key).version else 0
  }

  function Rows(env: Env, keys: seq<string>): map<string, Bytes> {
    map k | k in keys :: Blob(env, k)
  }

  function RowVersions(env: Env, keys: seq<string>): map<string, nat> {
    map k | k in keys :: BlobVersion(env, k)
  }

  predicate CmUsable(env: Env) {
    env.cm.Found? && |env.cm.value| >= MIN_CM_BYTES && env.putCm
  }

  function PeerVersions(env: Env): map<string, nat> {
    if env.peersVersion.Some? then map[KNOWN_PEERS_VSS_KEY := env.peersVersion.value] else map[]
  }

  /** After the download of `keys`: everything, or what the rollback leaves behind. */
  function Finished(env: Env, keys: seq<string>, manifestVersion: nat): Outcome {
    var n := Written(env, keys, 0);
    if n == |keys| && CmUsable(env) && env.peersOk then
      Outcome(Rows(env, keys), Some(env.cm.value), keys,
              VersionsFor(env, keys, manifestVersion),
              env.cm.version)
    else
      Outcome(if env.deleteMonitors then map[] else Rows(env, keys[..n]),
              if n == |keys| && CmUsable(env) && !env.deleteCm then Some(env.cm.value) else None,
              [], map[], 0)
  }

  function Recover(env: Env): Outcome {
    match env.manifest
    case Failed => Empty
    case Missing => Empty
    case Found(json, version) =>
      match Parse(json)
      case Err(_) => Empty
      case Ok(keys) => Finished(env, keys, version)
  }

  /** Every step works: the one condition under which the block restores anything. */
  ghost predicate Restorable(env: Env) {
    && env.manifest.Found? && Parse(env.manifest.value).Ok?
    && Downloadable(env, Parse(env.manifest.value).value)
    && env.cm.Found? && |env.cm.value| >= 32 && env.putCm && env.peersOk
  }

  /** The versions a finished recovery hands on. */
  function VersionsFor(env: Env, keys: seq<string>, manifestVersion: nat): map<string, nat> {
    (RowVersions(env, keys) + PeerVersions(env))[MONITOR_MANIFEST_KEY := manifestVersion]
  }

  /** The two other keys are no monitor's: no version displaces another. */
  lemma VersionOfMonitor(env: Env, keys: seq<string>, manifestVersion: nat, k: string)
    requires k in keys && IsMonitorKey(k)
    ensures var vs := VersionsFor(env, keys, manifestVersion); k in vs && vs[k] == BlobVersion(env, k)
  {
    assert |MONITOR_MANIFEST_KEY| == 13 && |KNOWN_PEERS_VSS_KEY| == 12 && |k| > 65;
  }

  lemma OtherVersions(env: Env, keys: seq<string>, manifestVersion: nat)
    requires forall k :: k in keys ==> IsMonitorKey(k)
    ensures var vs := VersionsFor(env, keys, manifestVersion);
      && MONITOR_MANIFEST_KEY in vs && vs[MONITOR_MANIFEST_KEY] == manifestVersion
      && (KNOWN_PEERS_VSS_KEY in vs <==> env.peersVersion.Some?)
      && (env.peersVersion.Some? ==> vs[KNOWN_PEERS_VSS_KEY] == env.peersVersion.value)
  {
    assert |MONITOR_MANIFEST_KEY| == 13 && |KNOWN_PEERS_VSS_KEY| == 12;
    assert !IsMonitorKey(KNOWN_PEERS_VSS_KEY);
  }

  lemma FinishedIff(env: Env, keys: seq<string>, manifestVersion: nat)
    ensures Written(env, keys, 0) == |keys| <==> Downloadable(env, keys)
    ensures Downloadable(env, keys) && CmUsable(env) && env.peersOk ==>
      Finished(env, keys, manifestVersion)
        == Outcome(Rows(env, keys), Some(env.cm.value), keys, VersionsFor(env, keys, manifestVersion), env.cm.version)
    ensures !(Downloadable(env, keys) && CmUsable(env) && env.peersOk) && env.deleteMonitors && env.deleteCm ==>
      Finished(env, keys, manifestVersion) == Empty
  {
    WrittenAll(env, keys, 0);
  }

  /** What a restored device must hold. */
  ghost predicate Restored(env: Env, keys: seq<string>, o: Outcome)
    requires env.manifest.Found? && env.cm.Found?
  {
    && o.keys == keys
    && o.monitors.Keys == Elements(keys)
    && (forall k :: k in keys ==> k in o.versions && env.monitor(k) == Found(o.monitors[k], o.versions[k]))
    && "_monitor_keys" in o.versions && o.versions["_monitor_keys"] == env.manifest.version
    && ("_known_peers" in o.versions <==> env.peersVersion.Some?)
    && (env.peersVersion.Some? ==> o.versions["_known_peers"] == env.peersVersion.value)
    && o.cm == Some(env.cm.value) && o.cmVersion == env.cm.version
  }

  lemma FinishedRestored(env: Env, keys: seq<string>)
    requires env.manifest.Found? && CmUsable(env) && Downloadable(env, keys)
    requires forall k :: k in keys ==> IsMonitorKey(k)
    ensures Restored(env, keys,
      Outcome(Rows(env, keys), Some(env.cm.value), keys, VersionsFor(env, keys, env.manifest.version), env.cm.version))
  {
    OtherVersions(env, keys, env.manifest.version);
    forall k | k in keys
      ensures k in VersionsFor(env, keys, env.manifest.version)
      ensures env.monitor(k) == Found(Blob(env, k), VersionsFor(env, keys, env.manifest.version)[k])
    {
      var j :| 0 <= j < |keys| && keys[j] == k;
      assert Good(env, keys[j]);
      VersionOfMonitor(env, keys, env.manifest.version, k);
    }
  }

  lemma ParsedKeys(j: Json)
    requires Parse(j).Ok?
    ensures forall k :: k in Parse(j).value ==> IsMonitorKey(k)
  {
    ParseSound(j);
  }

  /**
   * All or nothing: with working rollback deletes the device ends with every listed monitor at its VSS
   * value, the ChannelManager and all versions if every step worked, and with nothing at all otherwise.
   */
  lemma AllOrNothing(env: Env)
    requires env.deleteMonitors && env.deleteCm
    ensures if Restorable(env) then Restored(env, Parse(env.manifest.value).value, Recover(env)) else Recover(env) == Empty
  {
    if env.manifest.Found? && Parse(env.manifest.value).Ok? {
      var keys := Parse(env.manifest.value).value;
      FinishedIff(env, keys, env.manifest.version);
      if Restorable(env) {
        ParsedKeys(env.manifest.value);
        FinishedRestored(env, keys);
      }
    }
  }

  /** A restorable recovery reproduces any rows and versions the server answers with. */
  lemma RestoresRows(env: Env, rows: map<string, Bytes>, versions: map<string, nat>)
    requires Restorable(env) && env.deleteMonitors && env.deleteCm
    requires rows.Keys == versions.Keys == Elements(Parse(env.manifest.value).value)
    requires forall k :: k in rows ==> env.monitor(k) == Found(rows[k], versions[k])
    ensures var o := Recover(env);
      && Restored(env, Parse(env.manifest.value).value, o)
      && o.monitors == rows
      && (forall k :: k in rows ==> k in o.versions && o.versions[k] == versions[k])
  {
    AllOrNothing(env);
    RestoredRows(env, Parse(env.manifest.value).value, Recover(env), rows, versions);
  }

  lemma RestoredRows(env: Env, keys: seq<string>, o: Outcome, rows: map<string, Bytes>, versions: map<string, nat>)
    requires env.manifest.Found? && env.cm.Found? && Restored(env, keys, o)
    requires rows.Keys == versions.Keys == Elements(keys)
    requires forall k :: k in rows ==> env.monitor(k) == Found(rows[k], versions[k])
    ensures o.monitors == rows && forall k :: k in rows ==> k in o.versions && o.versions[k] == versions[k]
  {
    forall k | k in rows
      ensures k in o.monitors && o.monitors[k] == rows[k]
      ensures k in o.versions && o.versions[k] == versions[k]
    {
      assert k in keys;
    }
  }

  // ---------- Start-up after recovery ----------

  datatype StartupCheck = Passes | UnreadableMonitor | OrphanedMonitors

  /** `deserializeMonitors`, then the check for monitors without a ChannelManager. */
  ghost function Startup(o: Outcome, readable: Bytes -> bool): StartupCheck {
    if exists k :: k in o.monitors && !readable(o.monitors[k]) then UnreadableMonitor
    else if o.cm.None? && o.monitors != map[] then OrphanedMonitors
    else Passes
  }

  /**
   * Recovery alone makes start-up fail exactly when it had written monitors, some later step failed,
   * the rollback could not delete them, and no ChannelManager stayed behind; it never leaves an
   * unreadable monitor.
   */
  lemma StartupAfterRecovery(env: Env)
    ensures Startup(Recover(env), env.readable) != UnreadableMonitor
    ensures Startup(Recover(env), env.readable) == OrphanedMonitors <==>
      && env.manifest.Found? && Parse(env.manifest.value).Ok?
      && !Restorable(env)
      && !env.deleteMonitors
      && Written(env, Parse(env.manifest.value).value, 0) > 0
      && (env.deleteCm || !CmUsable(env) || !Downloadable(env, Parse(env.manifest.value).value))
  {
    if env.manifest.Found? && Parse(env.manifest.value).Ok? {
      var keys := Parse(env.manifest.value).value;
      WrittenAll(env, keys, 0);
      WrittenGood(env, keys, 0);
      var n := Written(env, keys, 0);
      forall k | k in keys[..n] ensures env.readable(Blob(env, k)) {
        var j :| 0 <= j < n && keys[j] == k;
        assert Good(env, keys[j]);
      }
      if n > 0 { assert keys[0] in Rows(env, keys[..n]); }
      if n == |keys| { assert keys[..n] == keys; }
    }
  }

  // ---------- The block itself ----------

  lemma RowsNext(env: Env, keys: seq<string>, n: nat)
    requires n < |keys|
    ensures Rows(env, keys[..n + 1]) == Rows(env, keys[..n])[keys[n] := Blob(env, keys[n])]
    ensures RowVersions(env, keys[..n + 1]) == RowVersions(env, keys[..n])[keys[n] := BlobVersion(env, keys[n])]
  {
    assert keys[..n + 1] == keys[..n] + [keys[n]];
  }

  class Device {
    var monitors: map<string, Bytes>
    var cm: Option<Bytes>
    var initialMonitorKeys: seq<string>
    var recoveredVersions: map<string, nat>
    var initialCmVersion: nat

    ghost function State(): Outcome
      reads this
    {
      Outcome(monitors, cm, initialMonitorKeys, recoveredVersions, initialCmVersion)
    }

    constructor ()
      ensures State() == Empty
    {
      monitors, cm, initialMonitorKeys, recoveredVersions, initialCmVersion := map[], None, [], map[], 0;
    }

    /** Writes one fetched chunk, stopping (the `throw`) at the first monitor that is not good. */
    method WriteChunk(env: Env, keys: seq<string>, i: nat, hi: nat) returns (done: nat)
      requires i <= hi <= |keys|
      requires monitors == Rows(env, keys[..i]) && recoveredVersions == RowVersions(env, keys[..i])
      modifies this`monitors, this`recoveredVersions
      ensures done == GoodUpTo(env, keys, i, hi)
      ensures monitors == Rows(env, keys[..done]) && recoveredVersions == RowVersions(env, keys[..done])
    {
      done := i;
      while done < hi
        invariant i <= done <= hi
        invariant GoodUpTo(env, keys, i, hi) == GoodUpTo(env, keys, done, hi)
        invariant monitors == Rows(env, keys[..done]) && recoveredVersions == RowVersions(env, keys[..done])
      {
        var key := keys[done];
        var obj := env.monitor(key);
        if !obj.Found? || !env.readable(obj.value) || !env.putMonitor(key) {
          return;
        }
        monitors := monitors[key := obj.value];
        recoveredVersions := recoveredVersions[key := obj.version];
        RowsNext(env, keys, done);
        done := done + 1;
      }
    }

    method Download(env: Env, keys: seq<string>) returns (written: nat)
      requires monitors == map[] && recoveredVersions == map[]
      modifies this`monitors, this`recoveredVersions
      ensures written == Written(env, keys, 0)
      ensures monitors == Rows(env, keys[..written]) && recoveredVersions == RowVersions(env, keys[..written])
    {
      written := 0;
      while written < |keys|
        invariant 0 <= written <= |keys|
        invariant Written(env, keys, 0) == Written(env, keys, written)
        invariant monitors == Rows(env, keys[..written]) && recoveredVersions == RowVersions(env, keys[..written])
      {
        var hi := ChunkEnd(keys, written);
        if env.late(written) {
          return;
        }
        var j := written;
        while j < hi
          invariant written <= j <= hi
          invariant Fetched(env, keys, written, j)
        {
          if env.monitor(keys[j]) == Failed {
            return;
          }
          j := j + 1;
        }
        var done := WriteChunk(env, keys, written, hi);
        if done < hi {
          written := done;
          return;
        }
        written := hi;
      }
    }

    /** The body of the `try`, once the manifest is parsed; `ok` is false where it throws. */
    method Restore(env: Env, keys: seq<string>, version: nat) returns (ok: bool, written: nat, wroteCm: bool)
      requires State() == Empty
      modifies this
      ensures written == Written(env, keys, 0)
      ensures monitors == Rows(env, keys[..written])
      ensures wroteCm == (written == |keys| && CmUsable(env))
      ensures cm == if wroteCm then Some(env.cm.value) else None
      ensures ok == (wroteCm && env.peersOk)
      ensures initialMonitorKeys == if ok then keys else []
      ensures ok ==> State() == Finished(env, keys, version)
    {
      ok, wroteCm := false, false;
      written := Download(env, keys);
      if written < |keys| || !env.cm.Found? || |env.cm.value| < MIN_CM_BYTES || !env.putCm {
        return;
      }
      cm := Some(env.cm.value);
      wroteCm := true;
      initialCmVersion := env.cm.version;
      assert keys[..written] == keys;
      if !env.peersOk {
        return;
      }
      if env.peersVersion.Some? {
        recoveredVersions := recoveredVersions[KNOWN_PEERS_VSS_KEY := env.peersVersion.value];
      }
      assert recoveredVersions == RowVersions(env, keys) + PeerVersions(env);
      recoveredVersions := recoveredVersions[MONITOR_MANIFEST_KEY := version];
      initialMonitorKeys := keys;
      ok := true;
    }

    /** The `catch`: undo the partial writes and forget every recovered version. */
    method RollBack(env: Env, keys: seq<string>, wroteCm: bool)
      modifies this
      ensures monitors == (if env.deleteMonitors then old(monitors) - Elements(keys) else old(monitors))
      ensures cm == (if wroteCm && env.deleteCm then None else old(cm))
      ensures recoveredVersions == map[] && initialCmVersion == 0
      ensures initialMonitorKeys == old(initialMonitorKeys)
    {
      if |keys| > 0 || wroteCm {
        if env.deleteMonitors { monitors := monitors - Elements(keys); }
        if wroteCm && env.deleteCm { cm := None; }
      }
      recoveredVersions := map[];
      initialCmVersion := 0;
    }

    /** The recovery block on an empty device. */
    method RecoverFromVss(env: Env)
      requires State() == Empty
      modifies this
      ensures State() == Recover(env)
    {
      if !env.manifest.Found? {
        return;
      }
      var parsed := ParseMonitorManifest(env.manifest.value);
      if parsed.Ok? {
        var ok, written, wroteCm := Restore(env, parsed.value, env.manifest.version);
        if !ok {
          RollBack(env, parsed.value[..written], wroteCm);
          assert Rows(env, parsed.value[..written]) - Elements(parsed.value[..written]) == map[];
        }
      }
    }
  }
}
