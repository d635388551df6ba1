/**
 * Writing the manifest: any number of devices, requests that may be served late, replies that may be
 * lost. `hist[v]` is the set of keys the server listed at version v; it is history, never read.
 */
module ManifestProtocol {
  import opened Common
  import opened OrderedSet
  import opened MonitorKey
  import opened Manifest

  datatype Stored = Stored(value: Json, version: nat)

  datatype Request = Put(version: nat, keys: seq<string>) | Get

  datatype Reply = Accepted | Conflict | Found(obj: Option<Stored>)

  datatype Pc = Idle | AwaitPut(id: nat, version: nat) | AwaitGet(id: nat) | AwaitRetry(id: nat, version: nat)

  /** One persister: its key set, cached manifest version, queued writes, and whether its last exchange went well. */
  datatype Device = Device(keys: seq<string>, cached: Option<nat>, queued: nat, pc: Pc, lastOk: bool)

  datatype System = System(
    server: Option<Stored>,
    devices: map<nat, Device>,
    wire: map<nat, Request>,
    replies: map<nat, Reply>,
    nextId: nat,
    hist: seq<set<string>>)

  datatype Event =
    | NewChannel(d: nat, key: string)
    | Backfill(d: nat)
    | Begin(d: nat)
    | Serve(id: nat)
    | Deliver(d: nat)
    | Fail(d: nat)
    | JoinLocal(d: nat, keys: seq<string>)
    | JoinRecovered(d: nat)

  function Version(server: Option<Stored>): nat {
    if server.Some? then server.value.version else 0
  }

  /** The keys a reader of the server's manifest would get. */
  function Listed(server: Option<Stored>): set<string> {
    if server.Some? && Parse(server.value.value).Ok? then Elements(Parse(server.value.value).value) else {}
  }

  function ServeRequest(s: System, id: nat): System {
    if id !in s.wire then s
    else
      var s' := s.(wire := s.wire - {id});
      match s.wire[id]
      case Get => s'.(replies := s.replies[id := Found(s.server)])
      case Put(version, keys) =>
        if version == Version(s.server) then
          s'.(server := Some(Stored(Payload(keys), version + 1)),
              replies := s.replies[id := Accepted],
              hist := s.hist + [Elements(keys)])
        else
          s'.(replies := s.replies[id := Conflict])
  }

  function Update(s: System, d: nat, v: Device): System {
    s.(devices := s.devices[d := v])
  }

  function PostPut(s: System, version: nat, keys: seq<string>): System {
    s.(wire := s.wire[s.nextId := Put(version, keys)], nextId := s.nextId + 1)
  }

  /** `backfillManifest` */
  function OnBackfill(v: Device): Device {
    if v.keys != [] && v.cached == None then v.(queued := v.queued + 1) else v
  }

  function OnBegin(s: System, d: nat): System
    requires d in s.devices
  {
    var v := s.devices[d];
    if v.pc != Idle || v.queued == 0 then s
    else
      var version := GetOr(v.cached, 0);
      Update(PostPut(s, version, v.keys), d, v.(queued := v.queued - 1, pc := AwaitPut(s.nextId, version)))
  }

  function Finish(s: System, d: nat, v: Device, ok: bool): System {
    Update(s, d, v.(pc := Idle, lastOk := ok))
  }

  function Merged(keys: seq<string>, server: Json): seq<string> {
    match Parse(server)
    case Ok(theirs) => AddAll(keys, theirs)
    case Err(_) => keys
  }

  function OnFound(s: System, d: nat, obj: Option<Stored>): System
    requires d in s.devices
  {
    var v := s.devices[d];
    match obj
    case None => Finish(s, d, v, false)
    case Some(o) =>
      var keys := Merged(v.keys, o.value);
      Update(PostPut(s, o.version, keys), d,
             v.(keys := keys, cached := Some(o.version), pc := AwaitRetry(s.nextId, o.version)))
  }

  function OnDeliver(s: System, d: nat): System
    requires d in s.devices
  {
    var v := s.devices[d];
    match v.pc
    case Idle => s
    case AwaitPut(id, version) =>
      if id !in s.replies then s
      else if s.replies[id] == Accepted then Finish(s, d, v.(cached := Some(version + 1)), true)
      else Update(s.(wire := s.wire[s.nextId := Get], nextId := s.nextId + 1), d, v.(pc := AwaitGet(s.nextId)))
    case AwaitGet(id) =>
      if id in s.replies && s.replies[id].Found? then OnFound(s, d, s.replies[id].obj) else s
    case AwaitRetry(id, version) =>
      if id !in s.replies then s
      else if s.replies[id] == Accepted then Finish(s, d, v.(cached := Some(version + 1)), true)
      else Finish(s, d, v, false)
  }

  function OnFail(s: System, d: nat): System
    requires d in s.devices
  {
    if s.devices[d].pc == Idle then s else Finish(s, d, s.devices[d], false)
  }

  /** A persister created from IndexedDB keys, with no manifest version cached. */
  function Local(keys: seq<string>): Device {
    Device(AddAll([], keys), None, 0, Idle, false)
  }

  /** A persister created by recovery: keys and version taken together from one get. */
  function Recovered(server: Stored): Device {
    Device(Merged([], server.value), Some(server.version), 0, Idle, true)
  }

  function Known(s: System, e: Event): bool {
    match e
    case NewChannel(d, _) => d in s.devices
    case Backfill(d) => d in s.devices
    case Begin(d) => d in s.devices
    case Serve(_) => true
    case Deliver(d) => d in s.devices
    case Fail(d) => d in s.devices
    case JoinLocal(_, _) => true
    case JoinRecovered(_) => s.server.Some?
  }

  function Step(s: System, e: Event): System {
    if !Known(s, e) then s
    else match e
      case NewChannel(d, key) =>
        var v := s.devices[d];
        Update(s, d, v.(keys := Add(v.keys, key), queued := v.queued + 1))
      case Backfill(d) => Update(s, d, OnBackfill(s.devices[d]))
      case Begin(d) => OnBegin(s, d)
      case Serve(id) => ServeRequest(s, id)
      case Deliver(d) => OnDeliver(s, d)
      case Fail(d) => OnFail(s, d)
      case JoinLocal(d, keys) => Update(s, d, Local(keys))
      case JoinRecovered(d) => Update(s, d, Recovered(s.server.value))
  }

  function Steps(s: System, es: seq<Event>): System {
    if es == [] then s else Step(Steps(s, es[..|es| - 1]), es[|es| - 1])
  }

  // ---------- The universe of keys ----------

  /** At most 1000 well-formed keys exist: every list over them parses. */
  ghost predicate Universe(u: set<string>) {
    |u| <= 1_000 && forall k :: k in u ==> IsMonitorKey(k)
  }

  ghost predicate Over(keys: seq<string>, u: set<string>) {
    Distinct(keys) && Elements(keys) <= u
  }

  ghost predicate EventOver(e: Event, u: set<string>) {
    && (e.NewChannel? ==> e.key in u)
    && (e.JoinLocal? ==> Elements(e.keys) <= u)
  }

  lemma OverReadable(keys: seq<string>, u: set<string>)
    requires Universe(u) && Over(keys, u) && keys != []
    ensures Parse(Payload(keys)) == Ok(keys)
  {
    DistinctLength(keys, u);
    forall i | 0 <= i < |keys| ensures IsMonitorKey(keys[i]) { assert keys[i] in Elements(keys); }
    ParsePayload(keys);
  }

  // ---------- The invariant ----------

  ghost predicate ServerInv(s: System, u: set<string>) {
    && |s.hist| == Version(s.server) + 1
    && s.hist[0] == {}
    && s.hist[|s.hist| - 1] == Listed(s.server)
    && (forall i, j :: 0 <= i <= j < |s.hist| ==> s.hist[i] <= s.hist[j])
    && (s.server.Some? ==> Parse(s.server.value.value).Ok? && Listed(s.server) <= u)
  }

  /** A list that may be put at `version` contains everything the server listed then. */
  ghost predicate Covers(s: System, version: nat, keys: seq<string>) {
    version < |s.hist| && s.hist[version] <= Elements(keys)
  }

  ghost predicate FoundOk(s: System, obj: Option<Stored>, u: set<string>) {
    obj.Some? ==>
      && obj.value.version < |s.hist|
      && Parse(obj.value.value).Ok?
      && Listed(obj) <= u
      && s.hist[obj.value.version] == Listed(obj)
  }

  ghost predicate MessagesInv(s: System, u: set<string>) {
    && (forall id :: id in s.wire ==> id < s.nextId && id !in s.replies)
    && (forall id :: id in s.replies ==> id < s.nextId)
    && (forall id :: id in s.wire && s.wire[id].Put? ==>
          s.wire[id].keys != [] && Over(s.wire[id].keys, u) && Covers(s, s.wire[id].version, s.wire[id].keys))
    && (forall id :: id in s.replies && s.replies[id].Found? ==> FoundOk(s, s.replies[id].obj, u))
  }

  ghost predicate PutPending(s: System, v: Device, id: nat, version: nat) {
    && (id in s.wire || id in s.replies)
    && (id in s.wire ==> s.wire[id].Put? && s.wire[id].version == version && Elements(s.wire[id].keys) <= Elements(v.keys))
    && (id in s.replies && s.replies[id] == Accepted ==> Covers(s, version + 1, v.keys))
  }

  ghost predicate DeviceInv(s: System, v: Device, u: set<string>) {
    && Over(v.keys, u)
    && Covers(s, GetOr(v.cached, 0), v.keys)
    && (v.queued > 0 || v.pc != Idle ==> v.keys != [])
    && match v.pc
       case Idle => true
       case AwaitPut(id, version) => PutPending(s, v, id, version)
       case AwaitGet(id) => true
       case AwaitRetry(id, version) => PutPending(s, v, id, version)
  }

  ghost predicate Inv(s: System, u: set<string>) {
    && ServerInv(s, u) && MessagesInv(s, u)
    && forall d :: d in s.devices ==> DeviceInv(s, s.devices[d], u)
  }

  lemma DeviceStep(s: System, d: nat, v: Device, u: set<string>)
    requires Inv(s, u) && DeviceInv(s, v, u)
    ensures Inv(Update(s, d, v), u)
  {
  }

  /** Posting a put disturbs nobody. */
  lemma PostKeeps(s: System, version: nat, keys: seq<string>, u: set<string>)
    requires Inv(s, u) && keys != [] && Over(keys, u) && Covers(s, version, keys)
    ensures Inv(PostPut(s, version, keys), u)
  {
    var t := PostPut(s, version, keys);
    forall d | d in t.devices ensures DeviceInv(t, t.devices[d], u) {
      assert DeviceInv(s, s.devices[d], u);
    }
  }

  /** The server takes a list exactly when it covers what is there, so nothing listed disappears. */
  lemma ServeKeeps(s: System, id: nat, u: set<string>)
    requires Universe(u) && Inv(s, u)
    ensures Inv(ServeRequest(s, id), u)
    ensures Listed(s.server) <= Listed(ServeRequest(s, id).server)
  {
    if id in s.wire {
      var t := ServeRequest(s, id);
      if s.wire[id].Put? {
        OverReadable(s.wire[id].keys, u);
      }
      ServeServer(s, id, u);
      forall d | d in t.devices ensures DeviceInv(t, t.devices[d], u) {
        ServeDevice(s, id, s.devices[d], u);
      }
    }
  }

  lemma ServeServer(s: System, id: nat, u: set<string>)
    requires Universe(u) && Inv(s, u) && id in s.wire
    requires s.wire[id].Put? ==> Parse(Payload(s.wire[id].keys)) == Ok(s.wire[id].keys)
    ensures ServerInv(ServeRequest(s, id), u) && MessagesInv(ServeRequest(s, id), u)
    ensures s.hist <= ServeRequest(s, id).hist
    ensures Listed(s.server) <= Listed(ServeRequest(s, id).server)
  {
    if s.wire[id].Put? && s.wire[id].version == Version(s.server) { TakenServer(s, id, u); }
  }

  lemma TakenServer(s: System, id: nat, u: set<string>)
    requires Universe(u) && Inv(s, u) && id in s.wire && s.wire[id].Put? && s.wire[id].version == Version(s.server)
    requires Parse(Payload(s.wire[id].keys)) == Ok(s.wire[id].keys)
    ensures ServerInv(ServeRequest(s, id), u) && MessagesInv(ServeRequest(s, id), u)
    ensures s.hist <= ServeRequest(s, id).hist
    ensures Listed(s.server) <= Listed(ServeRequest(s, id).server)
  {
    var t := ServeRequest(s, id);
    assert t.hist == s.hist + [Elements(s.wire[id].keys)];
    assert Listed(t.server) == Elements(s.wire[id].keys);
  }

  lemma ServeDevice(s: System, id: nat, v: Device, u: set<string>)
    requires Inv(s, u) && DeviceInv(s, v, u) && id in s.wire
    requires s.hist <= ServeRequest(s, id).hist
    ensures DeviceInv(ServeRequest(s, id), v, u)
  {
  }

  lemma FoundKeeps(s: System, d: nat, obj: Option<Stored>, u: set<string>)
    requires Universe(u) && Inv(s, u) && d in s.devices && s.devices[d].pc.AwaitGet? && FoundOk(s, obj, u)
    ensures Inv(OnFound(s, d, obj), u)
  {
    var v := s.devices[d];
    assert DeviceInv(s, v, u);
    if obj.Some? {
      var keys := Merged(v.keys, obj.value.value);
      PostKeeps(s, obj.value.version, keys, u);
      DeviceStep(PostPut(s, obj.value.version, keys), d,
                 v.(keys := keys, cached := Some(obj.value.version), pc := AwaitRetry(s.nextId, obj.value.version)), u);
    } else {
      DeviceStep(s, d, v.(pc := Idle, lastOk := false), u);
    }
  }

  lemma ConflictKeeps(s: System, d: nat, u: set<string>)
    requires Inv(s, u) && d in s.devices && s.devices[d].keys != []
    ensures Inv(Update(s.(wire := s.wire[s.nextId := Get], nextId := s.nextId + 1), d,
                       s.devices[d].(pc := AwaitGet(s.nextId))), u)
  {
    var v := s.devices[d];
    assert DeviceInv(s, v, u);
    var t := s.(wire := s.wire[s.nextId := Get], nextId := s.nextId + 1);
    forall c | c in t.devices ensures DeviceInv(t, t.devices[c], u) {
      assert DeviceInv(s, s.devices[c], u);
    }
    DeviceStep(t, d, v.(pc := AwaitGet(s.nextId)), u);
  }

  lemma AcceptedDevice(s: System, v: Device, u: set<string>)
    requires DeviceInv(s, v, u) && (v.pc.AwaitPut? || v.pc.AwaitRetry?)
    requires v.pc.id in s.replies && s.replies[v.pc.id] == Accepted
    ensures DeviceInv(s, v.(cached := Some(v.pc.version + 1), pc := Idle, lastOk := true), u)
  {
  }

  lemma AcceptedKeeps(s: System, d: nat, u: set<string>)
    requires Inv(s, u) && d in s.devices && (s.devices[d].pc.AwaitPut? || s.devices[d].pc.AwaitRetry?)
    requires s.devices[d].pc.id in s.replies && s.replies[s.devices[d].pc.id] == Accepted
    ensures Inv(Finish(s, d, s.devices[d].(cached := Some(s.devices[d].pc.version + 1)), true), u)
  {
    var v := s.devices[d];
    AcceptedDevice(s, v, u);
    DeviceStep(s, d, v.(cached := Some(v.pc.version + 1), pc := Idle, lastOk := true), u);
  }

  lemma DeliverKeeps(s: System, d: nat, u: set<string>)
    requires Universe(u) && Inv(s, u) && d in s.devices
    ensures Inv(OnDeliver(s, d), u)
  {
    var v := s.devices[d];
    assert DeviceInv(s, v, u);
    if v.pc.AwaitGet? {
      if v.pc.id in s.replies && s.replies[v.pc.id].Found? {
        FoundKeeps(s, d, s.replies[v.pc.id].obj, u);
      }
    } else if v.pc != Idle && v.pc.id in s.replies {
      if s.replies[v.pc.id] == Accepted {
        AcceptedKeeps(s, d, u);
      } else if v.pc.AwaitPut? {
        ConflictKeeps(s, d, u);
      } else {
        DeviceStep(s, d, v.(pc := Idle, lastOk := false), u);
      }
    }
  }

  lemma BeginDevice(s: System, v: Device, u: set<string>)
    requires DeviceInv(s, v, u) && v.pc == Idle && v.queued > 0 && s.nextId !in s.replies
    ensures DeviceInv(PostPut(s, GetOr(v.cached, 0), v.keys),
                      v.(queued := v.queued - 1, pc := AwaitPut(s.nextId, GetOr(v.cached, 0))), u)
  {
  }

  lemma BeginKeeps(s: System, d: nat, u: set<string>)
    requires Inv(s, u) && d in s.devices
    ensures Inv(OnBegin(s, d), u)
  {
    var v := s.devices[d];
    assert DeviceInv(s, v, u);
    if v.pc == Idle && v.queued > 0 {
      var version := GetOr(v.cached, 0);
      BeginDevice(s, v, u);
      PostKeeps(s, version, v.keys, u);
      DeviceStep(PostPut(s, version, v.keys), d, v.(queued := v.queued - 1, pc := AwaitPut(s.nextId, version)), u);
    }
  }

  lemma JoinKeeps(s: System, e: Event, u: set<string>)
    requires Inv(s, u) && EventOver(e, u) && (e.JoinLocal? || e.JoinRecovered?)
    ensures Inv(Step(s, e), u)
  {
    if e.JoinLocal? {
      DeviceStep(s, e.d, Local(e.keys), u);
    } else if s.server.Some? {
      DeviceStep(s, e.d, Recovered(s.server.value), u);
    }
  }

  lemma OwnKeeps(s: System, e: Event, u: set<string>)
    requires Inv(s, u) && EventOver(e, u) && Known(s, e) && (e.NewChannel? || e.Backfill? || e.Fail?)
    ensures Inv(Step(s, e), u)
  {
    var v := s.devices[e.d];
    assert DeviceInv(s, v, u);
    if e.NewChannel? {
      DeviceStep(s, e.d, v.(keys := Add(v.keys, e.key), queued := v.queued + 1), u);
    } else if e.Backfill? {
      DeviceStep(s, e.d, OnBackfill(v), u);
    } else {
      DeviceStep(s, e.d, v.(pc := Idle, lastOk := false), u);
    }
  }

  lemma OnlyServing(s: System, e: Event)
    requires !e.Serve?
    ensures Step(s, e).server == s.server
  {
  }

  lemma StepKeeps(s: System, e: Event, u: set<string>)
    requires Universe(u) && Inv(s, u) && EventOver(e, u)
    ensures Inv(Step(s, e), u)
    ensures Listed(s.server) <= Listed(Step(s, e).server)
  {
    if Known(s, e) {
      if e.Serve? { ServeKeeps(s, e.id, u); }
      else {
        OnlyServing(s, e);
        if e.Begin? { BeginKeeps(s, e.d, u); }
        else if e.Deliver? { DeliverKeeps(s, e.d, u); }
        else if e.JoinLocal? || e.JoinRecovered? { JoinKeeps(s, e, u); }
        else { OwnKeeps(s, e, u); }
      }
    }
  }

  // ---------- The manifest only grows ----------

  ghost predicate ScriptOver(es: seq<Event>, u: set<string>) {
    forall i :: 0 <= i < |es| ==> EventOver(es[i], u)
  }

  /** No device is writing and nothing is on the wire; no cached version is ahead of the server. */
  ghost predicate Quiescent(s: System, u: set<string>) {
    && s.wire == map[] && s.replies == map[]
    && (s.server.Some? ==> s.server.value.version >= 1 && Parse(s.server.value.value).Ok? && Listed(s.server) <= u)
    && s.hist == seq(Version(s.server), i => {}) + [Listed(s.server)]
    && forall d :: d in s.devices ==>
         var v := s.devices[d];
         && Over(v.keys, u) && v.pc == Idle && v.queued == 0
         && GetOr(v.cached, 0) <= Version(s.server)
  }

  /** Holding the server's current version means knowing every key it lists. */
  ghost predicate Aligned(s: System) {
    forall d :: d in s.devices && s.devices[d].cached == Some(Version(s.server)) ==>
      Listed(s.server) <= Elements(s.devices[d].keys)
  }

  lemma StartInv(s: System, u: set<string>)
    requires Quiescent(s, u) && Aligned(s)
    ensures Inv(s, u)
  {
    forall d | d in s.devices ensures DeviceInv(s, s.devices[d], u) {
      var v := s.devices[d];
      if v.cached.Some? && v.cached.value < Version(s.server) {
        assert s.hist[v.cached.value] == {};
      }
    }
  }

  lemma {:induction false} RunsInv(s: System, es: seq<Event>, u: set<string>)
    requires Universe(u) && Inv(s, u) && ScriptOver(es, u)
    ensures Inv(Steps(s, es), u)
  {
    if es != [] {
      RunsInv(s, es[..|es| - 1], u);
      StepKeeps(Steps(s, es[..|es| - 1]), es[|es| - 1], u);
    }
  }

  /** A key listed at one moment is listed at every later one, whatever the devices and the network do. */
  lemma {:induction false} ManifestGrows(s: System, es: seq<Event>, i: nat, u: set<string>)
    requires Universe(u) && Quiescent(s, u) && Aligned(s) && ScriptOver(es, u) && i <= |es|
    ensures Listed(Steps(s, es[..i]).server) <= Listed(Steps(s, es).server)
    decreases |es|
  {
    if i == |es| {
      assert es[..i] == es;
    } else {
      var front := es[..|es| - 1];
      assert front[..i] == es[..i];
      ManifestGrows(s, front, i, u);
      StartInv(s, u);
      RunsInv(s, front, u);
      StepKeeps(Steps(s, front), es[|es| - 1], u);
    }
  }

  ghost predicate GrowsForever(s: System, u: set<string>) {
    forall es :: ScriptOver(es, u) ==> Listed(s.server) <= Listed(Steps(s, es).server)
  }

  lemma StepsSnoc(s: System, es: seq<Event>, e: Event)
    ensures Steps(s, es + [e]) == Step(Steps(s, es), e)
  {
    assert (es + [e])[..|es + [e]| - 1] == es;
  }

  /** A channel opened on such a device makes it put its own keys at the server's version. */
  lemma MisalignedPuts(s: System, d: nat, k: string, u: set<string>)
    requires Universe(u) && Quiescent(s, u) && d in s.devices && s.devices[d].cached == Some(Version(s.server)) && k in u
    ensures Listed(Step(Step(Step(s, NewChannel(d, k)), Begin(d)), Serve(s.nextId)).server)
      == Elements(s.devices[d].keys) + {k}
  {
    var keys := Add(s.devices[d].keys, k);
    var s1 := Step(s, NewChannel(d, k));
    var s2 := Step(s1, Begin(d));
    assert s1.devices[d].keys == keys;
    assert s2.wire[s.nextId] == Put(Version(s.server), keys);
    OverReadable(keys, u);
  }

  /** Some key can be opened whose list still misses one the server has. */
  lemma MissedKey(listed: set<string>, mine: set<string>, u: set<string>) returns (k: string)
    requires |u| >= 2 && !(listed <= mine)
    ensures k in u && !(listed <= mine + {k})
  {
    var x :| x in listed && x !in mine;
    if u <= {x} { Smaller(u, {x}); }
    k :| k in u && k != x;
  }

  lemma Smaller<T>(a: set<T>, b: set<T>)
    requires a <= b
    ensures |a| <= |b|
  {
    assert b == a + (b - a);
  }

  /** A device that holds the current version without knowing all its keys drops what it does not know. */
  lemma MisalignedDrops(s: System, d: nat, u: set<string>)
    requires Universe(u) && |u| >= 2 && Quiescent(s, u) && d in s.devices
    requires s.devices[d].cached == Some(Version(s.server)) && !(Listed(s.server) <= Elements(s.devices[d].keys))
    ensures !GrowsForever(s, u)
  {
    var k := MissedKey(Listed(s.server), Elements(s.devices[d].keys), u);
    MisalignedPuts(s, d, k, u);
    var es := [NewChannel(d, k), Begin(d), Serve(s.nextId)];
    StepsOfThree(s, es[0], es[1], es[2]);
    NotForever(s, es, u);
  }

  lemma NotForever(s: System, es: seq<Event>, u: set<string>)
    requires ScriptOver(es, u) && !(Listed(s.server) <= Listed(Steps(s, es).server))
    ensures !GrowsForever(s, u)
  {
  }

  lemma StepsOfThree(s: System, e1: Event, e2: Event, e3: Event)
    ensures Steps(s, [e1, e2, e3]) == Step(Step(Step(s, e1), e2), e3)
  {
    StepsSnoc(s, [], e1);
    StepsSnoc(s, [e1], e2);
    StepsSnoc(s, [e1, e2], e3);
    assert [] + [e1] == [e1] && [e1] + [e2] == [e1, e2] && [e1, e2] + [e3] == [e1, e2, e3];
  }

  /**
   * Exactly when the shared manifest is safe: no device may hold the current version and miss a key, and
   * least of all know none. (With a single key in the world there is nothing to drop.)
   */
  lemma GrowsForeverIff(s: System, u: set<string>)
    requires Universe(u) && |u| >= 2 && Quiescent(s, u)
    ensures GrowsForever(s, u) <==> Aligned(s)
  {
    if Aligned(s) {
      forall es | ScriptOver(es, u) ensures Listed(s.server) <= Listed(Steps(s, es).server) {
        ManifestGrows(s, es, 0, u);
      }
    } else {
      var d :| d in s.devices && s.devices[d].cached == Some(Version(s.server)) &&
        !(Listed(s.server) <= Elements(s.devices[d].keys));
      MisalignedDrops(s, d, u);
    }
  }

  // ---------- What a successful write has achieved ----------

  /** With no further write queued, all this device knows is in the put under way, or already listed. */
  ghost predicate Told(s: System, v: Device) {
    v.queued == 0 ==>
      match v.pc
      case Idle => v.lastOk ==> Elements(v.keys) <= Listed(s.server)
      case AwaitPut(id, _) => Sent(s, v, id)
      case AwaitGet(_) => true
      case AwaitRetry(id, _) => Sent(s, v, id)
  }

  ghost predicate Sent(s: System, v: Device, id: nat) {
    && (id in s.wire && s.wire[id].Put? ==> Elements(v.keys) <= Elements(s.wire[id].keys))
    && (id in s.replies && s.replies[id] == Accepted ==> Elements(v.keys) <= Listed(s.server))
  }

  lemma ToldServe(s: System, id: nat, v: Device, u: set<string>)
    requires Universe(u) && Inv(s, u) && DeviceInv(s, v, u) && Told(s, v)
    ensures Told(ServeRequest(s, id), v)
  {
    if id in s.wire {
      ServeKeeps(s, id, u);
      if s.wire[id].Put? { OverReadable(s.wire[id].keys, u); }
      if v.pc.AwaitPut? || v.pc.AwaitRetry? {
        if v.queued == 0 { SentServe(s, id, v, v.pc.id); }
      }
    }
  }

  lemma SentServe(s: System, id: nat, v: Device, awaited: nat)
    requires id in s.wire && Sent(s, v, awaited) && Listed(s.server) <= Listed(ServeRequest(s, id).server)
    requires awaited in s.wire ==> s.wire[awaited].Put?
    requires s.wire[id].Put? ==> Parse(Payload(s.wire[id].keys)) == Ok(s.wire[id].keys)
    ensures Sent(ServeRequest(s, id), v, awaited)
  {
  }

  lemma ToldDeliver(s: System, d: nat, u: set<string>)
    requires Universe(u) && Inv(s, u) && d in s.devices && Told(s, s.devices[d])
    ensures Told(OnDeliver(s, d), OnDeliver(s, d).devices[d])
  {
    assert DeviceInv(s, s.devices[d], u);
  }

  /** The server and what is known of requests so far are the same. */
  ghost predicate SameBefore(s: System, t: System) {
    && t.server == s.server && t.replies == s.replies
    && forall id :: id < s.nextId ==> (id in t.wire <==> id in s.wire) && (id in s.wire ==> t.wire[id] == s.wire[id])
  }

  /** Steps of the other devices leave this one alone. */
  lemma OtherStep(s: System, e: Event, d: nat)
    requires d in s.devices && !e.Serve? && e.d != d
    ensures d in Step(s, e).devices && Step(s, e).devices[d] == s.devices[d] && SameBefore(s, Step(s, e))
  {
  }

  lemma ToldOther(s: System, e: Event, d: nat, u: set<string>)
    requires Inv(s, u) && d in s.devices && Told(s, s.devices[d])
    requires !e.Serve? && e.d != d
    ensures d in Step(s, e).devices && Step(s, e).devices[d] == s.devices[d] && Told(Step(s, e), s.devices[d])
  {
    assert DeviceInv(s, s.devices[d], u);
    OtherStep(s, e, d);
  }

  lemma ToldOwn(s: System, e: Event, d: nat, u: set<string>)
    requires Universe(u) && Inv(s, u) && EventOver(e, u) && d in s.devices && Told(s, s.devices[d])
    requires !e.Serve? && !e.JoinLocal? && !e.JoinRecovered? && e.d == d
    ensures Told(Step(s, e), Step(s, e).devices[d])
    ensures Elements(s.devices[d].keys) <= Elements(Step(s, e).devices[d].keys)
  {
    assert DeviceInv(s, s.devices[d], u);
    if e.Deliver? { ToldDeliver(s, d, u); }
  }

  predicate Joins(e: Event, d: nat) {
    (e.JoinLocal? || e.JoinRecovered?) && e.d == d
  }

  lemma ToldStep(s: System, e: Event, d: nat, u: set<string>)
    requires Universe(u) && Inv(s, u) && EventOver(e, u) && d in s.devices && Told(s, s.devices[d]) && !Joins(e, d)
    ensures d in Step(s, e).devices && Told(Step(s, e), Step(s, e).devices[d])
    ensures Elements(s.devices[d].keys) <= Elements(Step(s, e).devices[d].keys)
  {
    if e.Serve? {
      assert DeviceInv(s, s.devices[d], u);
      ToldServe(s, e.id, s.devices[d], u);
    } else if e.d == d {
      ToldOwn(s, e, d, u);
    } else {
      ToldOther(s, e, d, u);
    }
  }

  lemma {:induction false} ToldRuns(s: System, es: seq<Event>, d: nat, u: set<string>)
    requires Universe(u) && Inv(s, u) && ScriptOver(es, u) && d in s.devices && Told(s, s.devices[d])
    requires forall i :: 0 <= i < |es| ==> !Joins(es[i], d)
    ensures var t := Steps(s, es);
      && Inv(t, u) && d in t.devices && Told(t, t.devices[d])
      && Elements(s.devices[d].keys) <= Elements(t.devices[d].keys)
  {
    if es != [] {
      var front, e := es[..|es| - 1], es[|es| - 1];
      ToldRuns(s, front, d, u);
      ToldStep(Steps(s, front), e, d, u);
      StepKeeps(Steps(s, front), e, u);
    }
  }

  /** A device is idle, nothing is queued, and its last write went well. */
  predicate WroteLast(v: Device) {
    v.pc == Idle && v.queued == 0 && v.lastOk
  }

  /**
   * A device that starts with some keys never forgets one, and whenever its last manifest write has
   * succeeded with no other queued, all it knows is listed by the server; whatever the others do.
   */
  lemma StartedKeysListed(s: System, d: nat, keys: seq<string>, es: seq<Event>, u: set<string>)
    requires Universe(u) && Inv(s, u) && Elements(keys) <= u && ScriptOver(es, u)
    requires forall i :: 0 <= i < |es| ==> !Joins(es[i], d)
    ensures var t := Steps(Step(s, JoinLocal(d, keys)), es);
      && d in t.devices
      && Elements(keys) <= Elements(t.devices[d].keys)
      && (WroteLast(t.devices[d]) ==> Elements(t.devices[d].keys) <= Listed(t.server))
  {
    StepKeeps(s, JoinLocal(d, keys), u);
    ToldRuns(Step(s, JoinLocal(d, keys)), es, d, u);
  }

  /** So it is for a device that recovery started: it knows what the server listed. */
  lemma RecoveredKeysListed(s: System, d: nat, es: seq<Event>, u: set<string>)
    requires Universe(u) && Inv(s, u) && s.server.Some? && ScriptOver(es, u)
    requires forall i :: 0 <= i < |es| ==> !Joins(es[i], d)
    ensures var t := Steps(Step(s, JoinRecovered(d)), es);
      && d in t.devices
      && Listed(s.server) <= Elements(t.devices[d].keys)
      && (WroteLast(t.devices[d]) ==> Elements(t.devices[d].keys) <= Listed(t.server))
  {
    StepKeeps(s, JoinRecovered(d), u);
    ToldRuns(Step(s, JoinRecovered(d)), es, d, u);
  }

  /** A queued write at the server's version is taken. */
  lemma PutTaken(s: System, d: nat, u: set<string>)
    requires Universe(u) && d in s.devices && Over(s.devices[d].keys, u) && s.devices[d].keys != []
    requires s.devices[d].pc == Idle && s.devices[d].queued > 0
    requires GetOr(s.devices[d].cached, 0) == Version(s.server)
    ensures var t := Step(Step(s, Begin(d)), Serve(s.nextId));
      && s.nextId in t.replies && t.replies[s.nextId] == Accepted
      && Listed(t.server) == Elements(s.devices[d].keys)
  {
    OverReadable(s.devices[d].keys, u);
    assert Step(s, Begin(d)).wire[s.nextId] == Put(Version(s.server), s.devices[d].keys);
  }

  /**
   * A wallet older than the manifest gets one: started from its IndexedDB keys, with none on the server,
   * the backfill's write lists exactly those keys.
   */
  lemma BackfillLists(s: System, d: nat, keys: seq<string>, u: set<string>)
    requires Universe(u) && Elements(keys) <= u && s.server.None? && keys != []
    ensures Listed(Step(Step(Step(Step(s, JoinLocal(d, keys)), Backfill(d)), Begin(d)), Serve(s.nextId)).server) == Elements(keys)
  {
    var t := Step(Step(s, JoinLocal(d, keys)), Backfill(d));
    BackfillOpens(s, d, keys);
    assert keys[0] in Elements(t.devices[d].keys);
    PutTaken(t, d, u);
  }

  lemma BackfillOpens(s: System, d: nat, keys: seq<string>)
    requires keys != []
    ensures var t := Step(Step(s, JoinLocal(d, keys)), Backfill(d));
      && d in t.devices && t.nextId == s.nextId && t.server == s.server
      && Distinct(t.devices[d].keys) && Elements(t.devices[d].keys) == Elements(keys)
      && t.devices[d].pc == Idle && t.devices[d].queued == 1 && t.devices[d].cached == None
  {
    assert keys[0] in Elements(keys);
    assert AddAll([], keys) != [];
  }

  /** With a version cached, or no key, the backfill writes nothing. */
  lemma BackfillIdle(s: System, d: nat)
    requires d in s.devices && (s.devices[d].cached.Some? || s.devices[d].keys == [])
    ensures Step(s, Backfill(d)) == s
  {
    assert s.devices[d := s.devices[d]] == s.devices;
  }

  /**
   * A recovered device is seeded with the server's version: its first write is taken without a conflict and
   * adds the new channel's key to what the server listed.
   */
  lemma FirstWriteAfterRecovery(s: System, d: nat, k: string, u: set<string>)
    requires Universe(u) && Inv(s, u) && s.server.Some? && k in u
    ensures var t := Step(Step(Step(Step(s, JoinRecovered(d)), NewChannel(d, k)), Begin(d)), Serve(s.nextId));
      && s.nextId in t.replies && t.replies[s.nextId] == Accepted
      && Listed(t.server) == Listed(s.server) + {k}
  {
    var t := Step(Step(s, JoinRecovered(d)), NewChannel(d, k));
    RecoveredOpens(s, d, k);
    assert k in Elements(t.devices[d].keys);
    PutTaken(t, d, u);
  }

  lemma RecoveredOpens(s: System, d: nat, k: string)
    requires s.server.Some? && Parse(s.server.value.value).Ok?
    ensures var t := Step(Step(s, JoinRecovered(d)), NewChannel(d, k));
      && d in t.devices && t.nextId == s.nextId && t.server == s.server
      && Distinct(t.devices[d].keys) && Elements(t.devices[d].keys) == Listed(s.server) + {k}
      && t.devices[d].pc == Idle && t.devices[d].queued == 1 && t.devices[d].cached == Some(Version(s.server))
  {
  }

  predicate IdsBelow(s: System) {
    && (forall id :: id in s.wire ==> id < s.nextId)
    && (forall id :: id in s.replies ==> id < s.nextId)
  }

  // ---------- One conflict, merged and retried ----------

  /** The write conflicts and the device asks for the server's list. */
  function Conflicted(s: System, d: nat): System {
    Step(Step(Step(s, Begin(d)), Serve(s.nextId)), Deliver(d))
  }

  /** The list arrives, is merged, and the merged list is put and served. */
  function Retried(s: System, d: nat): System
    requires s.nextId > 0
  {
    Step(Step(Step(s, Serve(s.nextId - 1)), Deliver(d)), Serve(s.nextId))
  }

  /** A list still has these keys among its entries, readable or not. */
  predicate Keeps(j: Json, keys: seq<string>) {
    j.Array? && forall k :: k in keys ==> Text(k) in j.entries
  }

  /**
   * A device behind the server's version writes its manifest with no fault and no race. The server's keys
   * all survive the retry if and only if there are at most 1000 of them or the device knew them anyway:
   * beyond that the merge cannot read the list and overwrites it.
   */
  lemma RetryKeepsIff(s: System, d: nat, keys: seq<string>)
    requires IdsBelow(s) && d in s.devices
    requires s.server.Some? && s.server.value.value == Payload(keys)
    requires Distinct(keys) && forall k :: k in keys ==> IsMonitorKey(k)
    requires s.devices[d].pc == Idle && s.devices[d].queued > 0
    requires GetOr(s.devices[d].cached, 0) != s.server.value.version
    ensures var t := Retried(Conflicted(s, d), d);
      && t.server.Some? && t.server.value.version == s.server.value.version + 1
      && (Keeps(t.server.value.value, keys) <==>
            |keys| <= 1_000 || Elements(keys) <= Elements(s.devices[d].keys))
  {
    ConflictAsks(s, d);
    RetryPuts(Conflicted(s, d), d);
    MergedKeepsIff(s.devices[d].keys, keys);
  }

  lemma ConflictAsks(s: System, d: nat)
    requires IdsBelow(s) && d in s.devices && s.devices[d].pc == Idle && s.devices[d].queued > 0
    requires s.server.Some? && GetOr(s.devices[d].cached, 0) != s.server.value.version
    ensures var t, n := Conflicted(s, d), s.nextId;
      && t.server == s.server && t.nextId == n + 2 && n + 1 in t.wire && t.wire[n + 1] == Get
      && d in t.devices && t.devices[d].keys == s.devices[d].keys && t.devices[d].pc == AwaitGet(n + 1)
  {
    var s2 := Step(Step(s, Begin(d)), Serve(s.nextId));
    assert s2.server == s.server && s2.replies[s.nextId] == Conflict;
  }

  lemma RetryPuts(s: System, d: nat)
    requires s.server.Some? && s.nextId > 0 && d in s.devices && s.devices[d].pc == AwaitGet(s.nextId - 1)
    requires s.nextId - 1 in s.wire && s.wire[s.nextId - 1] == Get
    ensures Retried(s, d).server ==
      Some(Stored(Payload(Merged(s.devices[d].keys, s.server.value.value)), s.server.value.version + 1))
  {
    var s1 := Step(s, Serve(s.nextId - 1));
    assert s1.replies[s.nextId - 1] == Found(s.server);
    var s2 := Step(s1, Deliver(d));
    assert s2.wire[s.nextId] == Put(s.server.value.version, Merged(s.devices[d].keys, s.server.value.value));
  }

  lemma KeepsPayload(mine: seq<string>, keys: seq<string>)
    ensures Keeps(Payload(mine), keys) <==> Elements(keys) <= Elements(mine)
  {
    var es := Payload(mine).entries;
    forall k ensures Text(k) in es <==> k in mine {
      if k in mine {
        var i :| 0 <= i < |mine| && mine[i] == k;
        assert es[i] == Text(k);
      }
    }
    forall k ensures k in Elements(keys) <==> k in keys { }
    forall k ensures k in Elements(mine) <==> k in mine { }
  }

  lemma MergedKeepsIff(mine: seq<string>, keys: seq<string>)
    requires Distinct(keys) && forall k :: k in keys ==> IsMonitorKey(k)
    ensures Keeps(Payload(Merged(mine, Payload(keys))), keys) <==>
      |keys| <= 1_000 || Elements(keys) <= Elements(mine)
  {
    KeepsPayload(Merged(mine, Payload(keys)), keys);
    if keys == [] {
      assert Elements(keys) == {};
    } else if |keys| <= 1_000 {
      ParsePayload(keys);
    }
  }
}
