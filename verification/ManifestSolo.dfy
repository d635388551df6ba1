/** The manifest when one device writes it: after a successful last write the server lists exactly its keys. */
module ManifestSolo {
  import opened Common
  import opened OrderedSet
  import opened Manifest
  import opened ManifestProtocol

  const ME: nat := 0

  /** The server's list is the device's, at the device's version, and nothing on the wire can change it. */
  ghost predicate InStep(s: System) {
    ME in s.devices
    && var v := s.devices[ME];
    && GetOr(v.cached, 0) == Version(s.server)
    && (forall id :: id in s.wire && s.wire[id].Put? ==> s.wire[id].version < Version(s.server))
    && (v.queued == 0 ==> Agree(s, v.keys))
  }

  ghost predicate Agree(s: System, keys: seq<string>) {
    if keys == [] then s.server == None else s.server.Some? && s.server.value.value == Payload(keys)
  }

  ghost predicate Pending(s: System, v: Device, id: nat, version: nat) {
    && version == GetOr(v.cached, 0)
    && (id in s.wire || id in s.replies)
    && (id in s.wire ==> s.wire[id].Put? && s.wire[id].version == version && (v.queued == 0 ==> s.wire[id].keys == v.keys))
    && (id in s.replies && s.replies[id] == Accepted ==>
          Version(s.server) == version + 1 && (v.queued == 0 ==> s.server.value.value == Payload(v.keys)))
  }

  ghost predicate SoloInv(s: System) {
    && s.devices.Keys == {ME}
    && (forall id :: id in s.wire ==> id < s.nextId && id !in s.replies)
    && (forall id :: id in s.replies ==> id < s.nextId)
    && (s.server.Some? ==> s.server.value.version >= 1)
    && var v := s.devices[ME];
    && GetOr(v.cached, 0) <= Version(s.server)
    && (forall id :: id in s.wire && s.wire[id].Put? ==> s.wire[id].version <= GetOr(v.cached, 0))
    && (v.queued > 0 || v.pc != Idle ==> v.keys != [])
    && match v.pc
       case Idle => v.lastOk ==> InStep(s)
       case AwaitPut(id, version) => Pending(s, v, id, version)
       case AwaitGet(id) =>
         && (id in s.wire ==> s.wire[id] == Get)
         && (id in s.replies && s.replies[id].Found? && s.replies[id].obj.Some? ==>
               GetOr(v.cached, 0) <= s.replies[id].obj.value.version <= Version(s.server))
       case AwaitRetry(id, version) => Pending(s, v, id, version)
  }

  predicate IsMine(e: Event) {
    match e
    case NewChannel(d, _) => d == ME
    case Backfill(d) => d == ME
    case Begin(d) => d == ME
    case Serve(_) => true
    case Deliver(d) => d == ME
    case Fail(d) => d == ME
    case JoinLocal(_, _) => false
    case JoinRecovered(_) => false
  }

  lemma SoloServe(s: System, id: nat)
    requires SoloInv(s)
    ensures SoloInv(ServeRequest(s, id))
  {
  }

  lemma SoloFound(s: System, obj: Option<Stored>)
    requires SoloInv(s) && s.devices[ME].pc.AwaitGet?
    requires obj.Some? ==> GetOr(s.devices[ME].cached, 0) <= obj.value.version <= Version(s.server)
    ensures SoloInv(OnFound(s, ME, obj))
  {
  }

  lemma SoloReply(s: System)
    requires SoloInv(s) && !s.devices[ME].pc.AwaitGet?
    ensures SoloInv(OnDeliver(s, ME))
  {
  }

  lemma SoloDeliver(s: System)
    requires SoloInv(s)
    ensures SoloInv(OnDeliver(s, ME))
  {
    var v := s.devices[ME];
    if v.pc.AwaitGet? {
      if v.pc.id in s.replies && s.replies[v.pc.id].Found? { SoloFound(s, s.replies[v.pc.id].obj); }
    } else {
      SoloReply(s);
    }
  }

  lemma SoloStep(s: System, e: Event)
    requires SoloInv(s) && IsMine(e)
    ensures SoloInv(Step(s, e))
  {
    match e
    case Serve(id) => SoloServe(s, id);
    case Deliver(_) => SoloDeliver(s);
    case _ =>
  }

  ghost predicate Solo(es: seq<Event>) {
    forall i :: 0 <= i < |es| ==> IsMine(es[i])
  }

  lemma {:induction false} RunsSolo(s: System, es: seq<Event>)
    requires SoloInv(s) && Solo(es)
    ensures SoloInv(Steps(s, es))
  {
    if es != [] {
      RunsSolo(s, es[..|es| - 1]);
      SoloStep(Steps(s, es[..|es| - 1]), es[|es| - 1]);
    }
  }

  // ---------- Nothing but this device's keys is ever listed ----------

  lemma ListedPayload(keys: seq<string>, version: nat)
    ensures Listed(Some(Stored(Payload(keys), version))) <= Elements(keys)
  {
    var j := Payload(keys);
    if Parse(j).Ok? {
      ParseSound(j);
      forall s | s in Parse(j).value ensures s in keys {
        var i :| 0 <= i < |j.entries| && j.entries[i] == Text(s);
        assert keys[i] == s;
      }
    }
  }

  /** The server's list, those being sent and those being read back are all among the device's keys. */
  ghost predicate OwnLists(s: System) {
    ME in s.devices
    && var mine := Elements(s.devices[ME].keys);
    && Listed(s.server) <= mine
    && (forall id :: id in s.wire && s.wire[id].Put? ==> Elements(s.wire[id].keys) <= mine)
    && (forall id :: id in s.replies && s.replies[id].Found? ==> Listed(s.replies[id].obj) <= mine)
  }

  lemma OwnFound(s: System, obj: Option<Stored>)
    requires OwnLists(s) && Listed(obj) <= Elements(s.devices[ME].keys)
    ensures OwnLists(OnFound(s, ME, obj))
    ensures OnFound(s, ME, obj).devices[ME].keys == s.devices[ME].keys
  {
    if obj.Some? && Parse(obj.value.value).Ok? {
      AddAllKnown(s.devices[ME].keys, Parse(obj.value.value).value);
    }
  }

  lemma OwnServe(s: System, id: nat)
    requires OwnLists(s)
    ensures OwnLists(ServeRequest(s, id))
  {
    if id in s.wire && s.wire[id].Put? {
      ListedPayload(s.wire[id].keys, s.wire[id].version + 1);
    }
  }

  /** Keys change only when LDK opens a channel: the merge of one's own list is no change. */
  lemma OwnStep(s: System, e: Event)
    requires OwnLists(s) && IsMine(e)
    ensures OwnLists(Step(s, e))
    ensures !e.NewChannel? ==> Step(s, e).devices[ME].keys == s.devices[ME].keys
    ensures e.NewChannel? ==> Step(s, e).devices[ME].keys == Add(s.devices[ME].keys, e.key)
  {
    match e
    case Serve(id) => OwnServe(s, id);
    case Deliver(_) =>
      var v := s.devices[ME];
      if v.pc.AwaitGet? && v.pc.id in s.replies && s.replies[v.pc.id].Found? {
        OwnFound(s, s.replies[v.pc.id].obj);
      }
    case _ =>
  }
}
