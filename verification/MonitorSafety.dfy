/** What every step of a monitor write keeps, and what follows for whole runs. */
module MonitorSafety {
  import opened Common
  import opened MonitorWrite

  // ---------- Any number of writers ----------

  /** How many updates have been started: those acknowledged and the running one. */
  function Begun(c: Chan): nat {
    c.acked + if c.run.Some? then 1 else 0
  }

  ghost predicate WireShape(w: World, begun: nat) {
    && (forall id :: id in w.wire ==> id < w.nextId && id !in w.replies)
    && (forall id :: id in w.replies ==> id < w.nextId)
    && (forall id :: id in w.wire && w.wire[id].Put? ==> w.wire[id].origin < begun)
    && Origin(w.server) < begun
  }

  ghost predicate AwaitShape(c: Chan, r: Run) {
    match r.pc
    case AwaitPut(id, version) =>
      && c.vss && version == Cached(c)
      && (id in c.world.wire || id in c.world.replies)
      && (id in c.world.wire ==> c.world.wire[id] == Put(version, r.data, c.acked))
      && (id in c.world.replies ==> c.world.replies[id] in {Accepted, Conflict})
      && (id in c.world.replies && c.world.replies[id] == Accepted ==> Row(r.data, c.acked) in c.world.taken)
    case AwaitGet(id) =>
      && c.vss
      && (id in c.world.wire || id in c.world.replies)
      && (id in c.world.wire ==> c.world.wire[id] == Get)
      && (id in c.world.replies ==> c.world.replies[id].Found?)
    case AwaitIdb => c.vss ==> Row(r.data, c.acked) in c.world.taken
    case AwaitSameIdb => c.vss && r.seen
    case Sleeping => true
    case Returned =>
      && (c.vss ==> Row(r.data, c.acked) in c.world.taken || r.seen)
      && c.world.idb == Some(Row(r.data, c.acked))
  }

  ghost predicate QueueShape(c: Chan) {
    && c.acked + (if c.run.Some? then 1 else 0) <= |c.issued|
    && |c.acks| == c.acked
    && (forall i :: 0 <= i < c.acked ==> c.acks[i] == c.issued[i].id)
    && (c.run.Some? ==> c.run.value.data == c.issued[c.acked].data)
  }

  ghost predicate Shape(c: Chan) {
    QueueShape(c) && WireShape(c.world, Begun(c)) && (c.run.Some? ==> AwaitShape(c, c.run.value))
  }

  /** A session's beginning: nothing issued, and whatever is stored or still on the wire is someone else's. */
  ghost predicate SessionStart(c: Chan) {
    && c.issued == [] && c.acked == 0 && c.acks == [] && c.run == None
    && Origin(c.world.server) == -1 && c.world.taken == []
    && (forall id :: id in c.world.wire ==> id < c.world.nextId && id !in c.world.replies)
    && (forall id :: id in c.world.replies ==> id < c.world.nextId)
    && (forall id :: id in c.world.wire && c.world.wire[id].Put? ==> c.world.wire[id].origin == -1)
  }

  lemma OutsideShape(w: World, e: Event, begun: nat)
    requires WireShape(w, begun)
    ensures WireShape(Outside(w, e), begun)
  {
  }

  lemma OutsideAwait(c: Chan, e: Event)
    requires Shape(c) && IsOutside(e) && c.run.Some?
    ensures AwaitShape(c.(world := Outside(c.world, e)), c.run.value)
  {
  }

  lemma AttemptShape(c: Chan)
    requires c.run.Some? && QueueShape(c) && WireShape(c.world, Begun(c))
    ensures Shape(Attempt(c))
  {
  }

  lemma ConflictShape(c: Chan)
    requires c.run.Some? && Shape(c) && c.run.value.pc.AwaitPut?
    ensures Shape(OnConflict(c))
  {
  }

  lemma ResumeShape(c: Chan, e: Event)
    requires Shape(c) && (e.Deliver? || e.Fail? || e.IdbOk? || e.IdbFail? || e.Wake?)
    ensures Shape(Resume(c, e))
  {
    if c.run.Some? {
      var r := c.run.value;
      if e.Deliver? {
        if r.pc.AwaitPut? {
          ConflictShape(c);
        } else if r.pc.AwaitGet? && r.pc.id in c.world.replies && c.world.replies[r.pc.id].Found? {
          var obj := c.world.replies[r.pc.id].obj;
          AttemptShape(c.(cached := Some(if obj.Some? then obj.value.version else 0)));
        }
      } else if e.Fail? {
        AttemptShape(c);
      } else if e.IdbFail? {
        AttemptShape(c.(world := c.world.(idb := Some(Row(r.data, c.acked)))));
        AttemptShape(c);
      } else if e.Wake? {
        AttemptShape(c.(run := Some(Awake(r))));
      }
    }
  }

  lemma StepShape(c: Chan, e: Event)
    requires Shape(c)
    ensures Shape(Step(c, e))
  {
    if e.Start? {
      if c.run.None? && c.acked < |c.issued| {
        AttemptShape(c.(run := Some(NewRun(c.issued[c.acked].data))));
      }
    } else if IsOutside(e) {
      OutsideShape(c.world, e, Begun(c));
      if c.run.Some? { OutsideAwait(c, e); }
    } else if !e.Issue? && !e.Ack? {
      ResumeShape(c, e);
    }
  }

  lemma {:induction false} RunsShape(c: Chan, es: seq<Event>)
    requires SessionStart(c)
    ensures Shape(Steps(c, es))
  {
    if es != [] {
      RunsShape(c, es[..|es| - 1]);
      StepShape(Steps(c, es[..|es| - 1]), es[|es| - 1]);
    }
  }

  // ---------- Acknowledgement safety and order, under any faults and any foreign writers ----------

  /** A state in which the next microtask calls `channel_monitor_updated` for update `c.acked`. */
  ghost predicate AboutToAck(c: Chan) {
    c.run.Some? && c.run.value.pc == Returned
  }

  /** At some moment of the run, while write number `acked` was under way, the server held these bytes. */
  ghost predicate HeldDuring(c: Chan, es: seq<Event>, acked: nat, value: Bytes) {
    exists j :: 0 <= j <= |es| && HoldsNow(Steps(c, es[..j]), acked, value)
  }

  ghost predicate HoldsNow(s: Chan, acked: nat, value: Bytes) {
    s.acked == acked && s.run.Some? && s.world.server.Some? && s.world.server.value.value == value
  }

  lemma HeldLater(c: Chan, es: seq<Event>, e: Event, acked: nat, value: Bytes)
    requires HeldDuring(c, es, acked, value)
    ensures HeldDuring(c, es + [e], acked, value)
  {
    var j :| 0 <= j <= |es| && HoldsNow(Steps(c, es[..j]), acked, value);
    assert (es + [e])[..j] == es[..j];
  }

  lemma HeldNow(c: Chan, es: seq<Event>, acked: nat, value: Bytes)
    requires HoldsNow(Steps(c, es), acked, value)
    ensures HeldDuring(c, es, acked, value)
  {
    assert es[..|es|] == es;
  }

  /** Bytes a get of the running write brought back, or will bring back. */
  predicate Read(s: Chan, value: Bytes) {
    s.run.Some?
    && ((s.run.value.seen && s.run.value.data == value)
        || (s.run.value.pc.AwaitGet? && s.run.value.pc.id in s.world.replies
            && var reply := s.world.replies[s.run.value.pc.id];
            reply.Found? && reply.obj.Some? && reply.obj.value.value == value))
  }

  /** What a step newly brings back the server holds at that step; the write it belongs to is the same. */
  lemma ReadStep(s: Chan, e: Event, value: Bytes)
    requires Shape(s) && Read(Step(s, e), value)
    ensures Step(s, e).acked == s.acked && (Read(s, value) || HoldsNow(s, s.acked, value))
  {
  }

  /** Whatever a write has read back the server did hold while that write was under way. */
  lemma {:induction false} ReadWasHeld(c: Chan, es: seq<Event>, value: Bytes)
    requires SessionStart(c) && Read(Steps(c, es), value)
    ensures HeldDuring(c, es, Steps(c, es).acked, value)
  {
    var front, e := es[..|es| - 1], es[|es| - 1];
    var s := Steps(c, front);
    assert es == front + [e];
    RunsShape(c, front);
    ReadStep(s, e, value);
    if HoldsNow(s, s.acked, value) { HeldNow(c, front, s.acked, value); } else { ReadWasHeld(c, front, value); }
    HeldLater(c, front, e, s.acked, value);
  }

  /**
   * `channel_monitor_updated` is reached only with IndexedDB holding exactly this update's bytes and,
   * with a VSS client, the server having accepted them from this session or having held them at some
   * moment while this very write was under way.
   */
  lemma AckSafety(c: Chan, es: seq<Event>)
    requires SessionStart(c)
    ensures var s := Steps(c, es);
      AboutToAck(s) ==>
        && s.acked < |s.issued|
        && s.world.idb == Some(Row(s.issued[s.acked].data, s.acked))
        && (s.vss ==> Row(s.issued[s.acked].data, s.acked) in s.world.taken
                      || HeldDuring(c, es, s.acked, s.issued[s.acked].data))
        && Step(s, Ack).acks == s.acks + [s.issued[s.acked].id]
  {
    var s := Steps(c, es);
    RunsShape(c, es);
    StepsVss(c, es);
    if AboutToAck(s) && s.run.value.seen { ReadWasHeld(c, es, s.run.value.data); }
  }

  lemma {:induction false} StepsVss(c: Chan, es: seq<Event>)
    ensures Steps(c, es).vss == c.vss
  {
    if es != [] { StepsVss(c, es[..|es| - 1]); }
  }

  /** The calls are exactly the issued updates, in the order LDK issued them, each at most once. */
  lemma AckOrder(c: Chan, es: seq<Event>)
    requires SessionStart(c)
    ensures var s := Steps(c, es);
      && |s.acks| <= |s.issued|
      && forall i :: 0 <= i < |s.acks| ==> s.acks[i] == s.issued[i].id
  {
    RunsShape(c, es);
  }

  function IdbOrigin(c: Chan): int {
    if c.world.idb.Some? then c.world.idb.value.origin else -1
  }

  ghost predicate IdbBounded(c: Chan) {
    IdbOrigin(c) < Begun(c)
  }

  lemma IdbStep(c: Chan, e: Event)
    requires IdbBounded(c)
    ensures IdbBounded(Step(c, e))
    ensures IdbOrigin(c) <= IdbOrigin(Step(c, e))
  {
  }

  /** IndexedDB sees updates in the order they were issued: at no later moment does it hold an older one. */
  lemma {:induction false} IdbNeverGoesBack(c: Chan, es: seq<Event>, i: nat)
    requires IdbBounded(c) && i <= |es|
    ensures IdbBounded(Steps(c, es))
    ensures IdbOrigin(Steps(c, es[..i])) <= IdbOrigin(Steps(c, es))
    decreases |es|
  {
    if |es| == 0 {
      assert es[..i] == es;
    } else {
      var front := es[..|es| - 1];
      IdbNeverGoesBack(c, front, if i < |es| then i else 0);
      IdbStep(Steps(c, front), es[|es| - 1]);
      if i < |es| { assert front[..i] == es[..i]; } else { assert es[..i] == es; }
    }
  }

  // ---------- One writer: no rollback ----------

  predicate IsForeign(e: Event) {
    e.ForeignPut? || e.ForeignDelete?
  }

  predicate Solo(es: seq<Event>) {
    forall i :: 0 <= i < |es| ==> !IsForeign(es[i])
  }

  /** The running write has not yet learned that the server holds its bytes. */
  predicate Open(c: Chan) {
    c.run.Some? && (c.run.value.pc.AwaitPut? || c.run.value.pc.AwaitGet? || c.run.value.pc == Sleeping)
  }

  ghost predicate Mine(c: Chan, server: Option<Stored>) {
    c.run.Some? && server == Some(Stored(c.run.value.data, Cached(c) + 1, c.acked))
  }

  /** An earlier page's put that the server would still accept. */
  predicate IsLate(w: World, p: Request) {
    p.Put? && p.origin == -1 && p.version == Version(w.server) && Origin(w.server) == -1
  }

  predicate NoneLate(w: World) {
    forall id :: id in w.wire ==> !IsLate(w, w.wire[id])
  }

  /** A put that can still be accepted is one of the running write, at the current version, or a late one. */
  ghost predicate PutBounded(c: Chan, p: Request) {
    p.Put? ==>
      && (p.origin >= 0 ==> p.version <= Cached(c))
      && (p.version < Version(c.world.server)
          || (Open(c) && p == Put(Cached(c), c.run.value.data, c.acked) && Cached(c) == Version(c.world.server))
          || IsLate(c.world, p))
  }

  ghost predicate SoloWorld(c: Chan) {
    && Cached(c) <= Version(c.world.server)
    && (c.world.server.Some? ==> c.world.server.value.version >= 1)
    && (forall id :: id in c.world.wire ==> PutBounded(c, c.world.wire[id]))
    && (Cached(c) < Version(c.world.server) ==>
          Origin(c.world.server) == -1 || (Open(c) && Mine(c, c.world.server)))
  }

  ghost predicate SoloRun(c: Chan) {
    c.run.Some? ==>
      match c.run.value.pc
      case AwaitPut(id, version) =>
        id in c.world.replies ==>
          if c.world.replies[id] == Accepted then Mine(c, c.world.server)
          else Cached(c) < Version(c.world.server)
      case AwaitGet(id) =>
        && Cached(c) < Version(c.world.server)
        && (id in c.world.replies && c.world.replies[id].Found? ==> Current(c, c.world.replies[id].obj))
      case AwaitIdb => c.vss ==> Holds(c, c.run.value.data) && Origin(c.world.server) >= 0
      case AwaitSameIdb => true
      case Sleeping => true
      case Returned => true
  }

  /** What a get found is what the server holds, unless an earlier page's put has landed since. */
  ghost predicate Current(c: Chan, obj: Option<Stored>) {
    && Cached(c) < Version(obj) <= Version(c.world.server)
    && (obj == c.world.server || Origin(c.world.server) == -1)
  }

  /** The server holds `data` at exactly the cached version. */
  ghost predicate Holds(c: Chan, data: Bytes) {
    c.world.server.Some? && c.world.server.value.value == data && c.world.server.value.version == Cached(c)
  }

  /** Kept by every session without other writers. */
  ghost predicate SoloInv(c: Chan) {
    Shape(c) && SoloWorld(c) && SoloRun(c) && (!c.vss ==> Untouched(c.world))
  }

  ghost predicate NoPuts(w: World) {
    forall id :: id in w.wire ==> w.wire[id] == Get || w.wire[id].version < Version(w.server)
  }

  ghost predicate Untouched(w: World) {
    Origin(w.server) == -1 && forall id :: id in w.wire && w.wire[id].Put? ==> w.wire[id].origin == -1
  }

  /**
   * A session that may begin: neither the cache nor a put still on its way is ahead of the server. An
   * earlier page's put at the server's very version may be among them.
   */
  ghost predicate SoloStart(c: Chan) {
    && SessionStart(c)
    && Cached(c) <= Version(c.world.server)
    && (c.world.server.Some? ==> c.world.server.value.version >= 1)
    && forall id :: id in c.world.wire && c.world.wire[id].Put? ==> c.world.wire[id].version <= Version(c.world.server)
  }

  /** No late put, or a cache that is right: then a landing one is noticed. */
  ghost predicate Calm(c: Chan) {
    NoneLate(c.world) || Cached(c) == Version(c.world.server)
  }

  /** What the server still holds in a calm session. */
  ghost predicate HeldInv(c: Chan) {
    if c.run.None? then
      c.vss && 0 < c.acked <= |c.issued| ==> Firm(c, c.issued[c.acked - 1].data)
    else match c.run.value.pc
      case AwaitPut(_, _) => true
      case Sleeping => true
      case AwaitGet(id) => id in c.world.replies ==> c.world.replies[id] == Found(c.world.server)
      case AwaitIdb => c.vss ==> Firm(c, c.run.value.data)
      case AwaitSameIdb => Firm(c, c.run.value.data)
      case Returned => c.vss ==> Firm(c, c.run.value.data)
  }

  /** Held, and no put on its way can change it. */
  ghost predicate Firm(c: Chan, data: Bytes) {
    Holds(c, data) && NoneLate(c.world)
  }

  ghost predicate CalmInv(c: Chan) {
    SoloInv(c) && Calm(c) && HeldInv(c)
  }

  ghost predicate CalmStart(c: Chan) {
    SoloStart(c) && Calm(c)
  }

  lemma SoloAttempt(c: Chan)
    requires Shape(c) && SoloWorld(c) && Open(c)
    requires !c.vss ==> Untouched(c.world)
    ensures SoloWorld(Attempt(c)) && SoloRun(Attempt(c))
  {
  }

  lemma SoloServe(c: Chan, id: nat)
    requires SoloInv(c)
    ensures SoloInv(Step(c, Serve(id)))
  {
    StepShape(c, Serve(id));
    if id in c.world.wire && c.world.wire[id].Put? && c.world.wire[id].version == Version(c.world.server) {
      SoloTaken(c, id);
    } else {
      SoloAnswered(c, id);
    }
  }

  /** A put is taken: every other one is outdated now. */
  lemma SoloTaken(c: Chan, id: nat)
    requires SoloInv(c) && id in c.world.wire && c.world.wire[id].Put?
    requires c.world.wire[id].version == Version(c.world.server)
    ensures var d := Step(c, Serve(id));
      SoloWorld(d) && SoloRun(d) && (!d.vss ==> Untouched(d.world)) && NoneLate(d.world)
  {
    var d := Step(c, Serve(id));
    assert PutBounded(c, c.world.wire[id]);
    forall i | i in d.world.wire && d.world.wire[i].Put?
      ensures d.world.wire[i].version < Version(d.world.server)
    {
      assert PutBounded(c, c.world.wire[i]);
    }
  }

  lemma SoloAnswered(c: Chan, id: nat)
    requires SoloInv(c)
    requires id in c.world.wire && c.world.wire[id].Put? ==> c.world.wire[id].version != Version(c.world.server)
    ensures var d := Step(c, Serve(id));
      SoloWorld(d) && SoloRun(d) && (!d.vss ==> Untouched(d.world)) && d.world.server == c.world.server
  {
    var d := Step(c, Serve(id));
    forall i | i in d.world.wire ensures PutBounded(d, d.world.wire[i]) {
      assert PutBounded(c, c.world.wire[i]);
    }
  }

  lemma SoloDeliver(c: Chan)
    requires SoloInv(c)
    ensures SoloInv(Step(c, Deliver))
  {
    StepShape(c, Deliver);
    if c.run.Some? && c.run.value.pc.AwaitGet? && c.run.value.pc.id in c.world.replies {
      SoloFound(c, c.world.replies[c.run.value.pc.id].obj);
    }
  }

  lemma SoloFound(c: Chan, obj: Option<Stored>)
    requires SoloInv(c) && c.run.Some? && c.run.value.pc.AwaitGet? && Current(c, obj)
    ensures SoloWorld(OnFound(c, obj)) && SoloRun(OnFound(c, obj)) && OnFound(c, obj).vss
  {
    SoloAttempt(c.(cached := Some(Version(obj))));
  }

  lemma SoloRetry(c: Chan, e: Event)
    requires SoloInv(c) && (e.Fail? || e.Wake?)
    ensures SoloInv(Step(c, e))
  {
    StepShape(c, e);
    if c.run.Some? && e.Wake? && c.run.value.pc == Sleeping {
      SoloAttempt(c.(run := Some(Awake(c.run.value))));
    } else if c.run.Some? && e.Fail? && Open(c) {
      SoloAttempt(c);
    }
  }

  lemma SoloIdb(c: Chan, e: Event)
    requires SoloInv(c) && (e.IdbOk? || e.IdbFail?)
    ensures SoloInv(Step(c, e))
  {
    StepShape(c, e);
  }

  lemma SoloQueue(c: Chan, e: Event)
    requires SoloInv(c) && (e.Issue? || e.Start? || e.Ack?)
    ensures SoloInv(Step(c, e))
  {
    StepShape(c, e);
    if e.Start? && c.run.None? && c.acked < |c.issued| {
      SoloAttempt(c.(run := Some(NewRun(c.issued[c.acked].data))));
    }
  }

  lemma SoloStep(c: Chan, e: Event)
    requires SoloInv(c) && !IsForeign(e)
    ensures SoloInv(Step(c, e))
  {
    if e.Serve? { SoloServe(c, e.id); }
    else if e.Deliver? { SoloDeliver(c); }
    else if e.Issue? || e.Start? || e.Ack? { SoloQueue(c, e); }
    else if e.IdbOk? || e.IdbFail? { SoloIdb(c, e); }
    else { SoloRetry(c, e); }
  }

  lemma {:induction false} RunsSolo(c: Chan, es: seq<Event>)
    requires SoloStart(c) && Solo(es)
    ensures SoloInv(Steps(c, es))
  {
    if es != [] {
      RunsSolo(c, es[..|es| - 1]);
      SoloStep(Steps(c, es[..|es| - 1]), es[|es| - 1]);
    }
  }

  lemma CalmServe(c: Chan, id: nat)
    requires CalmInv(c)
    ensures CalmInv(Step(c, Serve(id)))
  {
    SoloServe(c, id);
    if id in c.world.wire && c.world.wire[id].Put? && c.world.wire[id].version == Version(c.world.server) {
      assert PutBounded(c, c.world.wire[id]);
      SoloTaken(c, id);
    } else {
      SoloAnswered(c, id);
    }
  }

  lemma CalmResume(c: Chan, e: Event)
    requires CalmInv(c) && (e.Deliver? || e.Fail? || e.Wake?)
    ensures CalmInv(Step(c, e))
  {
    SoloStep(c, e);
  }

  lemma CalmRest(c: Chan, e: Event)
    requires CalmInv(c) && (e.Issue? || e.Start? || e.Ack? || e.IdbOk? || e.IdbFail?)
    ensures CalmInv(Step(c, e))
  {
    SoloStep(c, e);
  }

  lemma CalmStep(c: Chan, e: Event)
    requires CalmInv(c) && !IsForeign(e)
    ensures CalmInv(Step(c, e))
  {
    if e.Serve? { CalmServe(c, e.id); }
    else if e.Deliver? || e.Fail? || e.Wake? { CalmResume(c, e); }
    else { CalmRest(c, e); }
  }

  lemma {:induction false} RunsCalm(c: Chan, es: seq<Event>)
    requires CalmStart(c) && Solo(es)
    ensures CalmInv(Steps(c, es))
  {
    if es != [] {
      RunsCalm(c, es[..|es| - 1]);
      CalmStep(Steps(c, es[..|es| - 1]), es[|es| - 1]);
    }
  }

  /** The server's values, in the order it stored them, come from ever newer updates. */
  ghost predicate InOrder(c: Chan) {
    && (forall i, j :: 0 <= i <= j < |c.world.taken| ==> c.world.taken[i].origin <= c.world.taken[j].origin)
    && (forall i :: 0 <= i < |c.world.taken| ==> c.world.taken[i].origin <= Origin(c.world.server))
  }

  lemma ClientKeepsServer(c: Chan, e: Event)
    requires !IsOutside(e)
    ensures var d := Step(c, e); d.world.server == c.world.server && d.world.taken == c.world.taken
  {
  }

  lemma SoloStepInOrder(c: Chan, e: Event)
    requires SoloInv(c) && InOrder(c) && !IsForeign(e)
    ensures InOrder(Step(c, e))
    ensures c.world.taken <= Step(c, e).world.taken
    ensures Origin(c.world.server) <= Origin(Step(c, e).world.server)
  {
    if !e.Serve? { ClientKeepsServer(c, e); }
  }

  /**
   * No rollback: at any two moments i <= j of a session without other writers, the value the server
   * holds at j belongs to an update at least as new, the cached version has not overtaken the server,
   * and every put of this session still on the wire carries at most the cached version.
   */
  lemma {:induction false} NoRollback(c: Chan, es: seq<Event>, i: nat)
    requires SoloStart(c) && Solo(es) && i <= |es|
    ensures var s, t := Steps(c, es[..i]), Steps(c, es);
      && Origin(s.world.server) <= Origin(t.world.server)
      && s.world.taken <= t.world.taken
      && InOrder(t)
      && Cached(t) <= Version(t.world.server)
      && forall id :: id in t.world.wire && t.world.wire[id].Put? && t.world.wire[id].origin >= 0 ==>
           t.world.wire[id].version <= Cached(t)
    decreases |es|
  {
    RunsSolo(c, es);
    if |es| == 0 {
    } else {
      var front := es[..|es| - 1];
      RunsSolo(c, front);
      if i == |es| {
        assert es[..i] == es;
        NoRollback(c, front, |front|);
        SoloStepInOrder(Steps(c, front), es[|es| - 1]);
      } else {
        assert front[..i] == es[..i];
        NoRollback(c, front, i);
        SoloStepInOrder(Steps(c, front), es[|es| - 1]);
      }
    }
  }

  // ---------- A late put of an earlier page ----------

  /** The running write asks for the server's version, and the late put is still on its way. */
  ghost predicate Asking(c: Chan, id: nat, late: Request, server: Stored, n: nat, u: Update) {
    && c.vss && c.issued == [u] && c.acked == 0
    && c.run.Some? && c.run.value.pc == AwaitGet(n) && c.run.value.data == u.data
    && c.world.server == Some(server)
    && n !in c.world.replies && n in c.world.wire && c.world.wire[n] == Get
    && id != n && id in c.world.wire && c.world.wire[id] == late
  }

  /** The first put of the session is on its way at a version that is behind, and so is the late put. */
  ghost predicate SentBehind(c: Chan, id: nat, late: Request, server: Stored, n: nat, u: Update) {
    && c.vss && c.issued == [u] && c.acked == 0 && c.run.Some? && c.run.value.data == u.data
    && c.run.value.pc == AwaitPut(n, Cached(c)) && c.run.value.conflictRetries == 0
    && c.world.server == Some(server) && Cached(c) < server.version
    && n in c.world.wire && c.world.wire[n] == Put(Cached(c), u.data, 0)
    && id in c.world.wire && id < n && c.world.wire[id] == late
    && c.world.nextId == n + 1 && n + 1 !in c.world.replies
  }

  lemma LateSent(c: Chan, id: nat, u: Update) returns (es: seq<Event>)
    requires SoloStart(c) && c.vss && id in c.world.wire && Cached(c) < Version(c.world.server)
    ensures Solo(es)
    ensures SentBehind(Steps(c, es), id, c.world.wire[id], c.world.server.value, c.world.nextId, u)
  {
    es := [Issue(u), Start];
    StepsOfTwo(c, Issue(u), Start);
  }

  lemma LateConflict(c: Chan, id: nat, late: Request, server: Stored, n: nat, u: Update) returns (es: seq<Event>)
    requires SentBehind(c, id, late, server, n, u)
    ensures Solo(es) && Asking(Steps(c, es), id, late, server, n + 1, u)
  {
    es := [Serve(n), Deliver];
    StepsOfTwo(c, Serve(n), Deliver);
    var d := Step(c, Serve(n));
    assert d.world.replies[n] == Conflict && d.world.wire[id] == late;
  }

  /** The write finds its bytes on the server, and while it writes IndexedDB the late put replaces them. */
  lemma LateLands(c: Chan, id: nat, late: Request, server: Stored, n: nat, u: Update) returns (es: seq<Event>)
    requires Asking(c, id, late, server, n, u)
    requires late.Put? && late.version == server.version && u.data == server.value
    ensures Solo(es) && Replaced(Steps(c, es), late, server, u)
  {
    es := [Serve(n), Deliver, Serve(id), IdbOk];
    StepsOfFour(c, Serve(n), Deliver, Serve(id), IdbOk);
    var s1 := Step(c, Serve(n));
    assert s1.world.replies[n] == Found(Some(server)) && s1.world.wire[id] == late;
    var s2 := Step(s1, Deliver);
    assert s2.run.value.pc == AwaitSameIdb && s2.world.wire[id] == late;
  }

  /** About to acknowledge `u`, while the server holds the late put's bytes at a version not cached. */
  ghost predicate Replaced(t: Chan, late: Request, server: Stored, u: Update)
    requires late.Put?
  {
    && AboutToAck(t) && t.acked == 0 && t.issued == [u] && t.cached == Some(server.version)
    && t.world.server == Some(Stored(late.value, server.version + 1, late.origin))
  }

  /**
   * An earlier page's put at the server's version is enough to lose an update that is being acknowledged:
   * no other device, no failure. The cache is behind, so the write conflicts, reads its own bytes back,
   * and while it writes IndexedDB the late put lands.
   */
  lemma LatePutReplaces(c: Chan, id: nat, u: Update) returns (es: seq<Event>)
    requires SoloStart(c) && c.vss && Cached(c) < Version(c.world.server)
    requires id in c.world.wire && IsLate(c.world, c.world.wire[id])
    requires u.data == c.world.server.value.value
    ensures Solo(es) && Replaced(Steps(c, es), c.world.wire[id], c.world.server.value, u)
  {
    var n, late, server := c.world.nextId, c.world.wire[id], c.world.server.value;
    var sending := LateSent(c, id, u);
    var asking := LateConflict(Steps(c, sending), id, late, server, n, u);
    var landing := LateLands(Steps(Steps(c, sending), asking), id, late, server, n + 1, u);
    es := sending + asking + landing;
    StepsJoin(c, sending, asking);
    StepsJoin(c, sending + asking, landing);
  }

  ghost predicate AckHeld(s: Chan) {
    AboutToAck(s) ==> s.acked < |s.issued| && Holds(s, s.issued[s.acked].data)
  }

  /** In every session from here, at every acknowledgement the server still holds the bytes at the cached version. */
  ghost predicate AcksHeld(c: Chan) {
    forall es :: Solo(es) ==> AckHeld(Steps(c, es))
  }

  lemma CalmAckHeld(c: Chan, es: seq<Event>)
    requires CalmStart(c) && Solo(es) && c.vss
    ensures AckHeld(Steps(c, es))
  {
    RunsCalm(c, es);
    StepsVss(c, es);
  }

  /** One late put, with the cache behind, spoils it. */
  lemma LatePut(c: Chan) returns (es: seq<Event>)
    requires SoloStart(c) && c.vss && !Calm(c)
    ensures Solo(es) && !AckHeld(Steps(c, es)) && AboutToAck(Steps(c, es))
    ensures Steps(c, es).acked == 0 && |Steps(c, es).issued| == 1
  {
    var id :| id in c.world.wire && IsLate(c.world, c.world.wire[id]);
    var u := Update(0, c.world.server.value.value);
    es := LatePutReplaces(c, id, u);
  }

  /**
   * Exactly when acknowledged means held, without other writers: no put of an earlier page may still be
   * on its way at the server's version, unless the session starts with that version cached.
   */
  lemma SoloAckSafety(c: Chan)
    requires SoloStart(c) && c.vss
    ensures AcksHeld(c) <==> Calm(c)
  {
    if Calm(c) {
      forall es | Solo(es) ensures AckHeld(Steps(c, es)) { CalmAckHeld(c, es); }
    } else {
      var es := LatePut(c);
    }
  }

  /** Between writes both stores hold the last acknowledged update, at exactly the cached version. */
  ghost predicate Settled(c: Chan, data: Bytes) {
    && c.run.None?
    && c.world.idb.Some? && c.world.idb.value.value == data
    && Holds(c, data)
    && NoPuts(c.world)
  }

  ghost predicate IdbSettled(c: Chan) {
    c.run.None? && 0 < c.acked <= |c.issued| ==>
      c.world.idb == Some(Row(c.issued[c.acked - 1].data, c.acked - 1))
  }

  lemma RunStays(c: Chan, e: Event)
    requires c.run.Some? && !e.Ack?
    ensures Step(c, e).run.Some?
  {
  }

  lemma IdleKeeps(c: Chan, e: Event)
    requires c.run.None? && !e.Start?
    ensures var d := Step(c, e); d.world.idb == c.world.idb && d.acked == c.acked && c.issued <= d.issued
  {
  }

  lemma StepIdbSettled(c: Chan, e: Event)
    requires Shape(c) && IdbSettled(c)
    ensures IdbSettled(Step(c, e))
  {
    if c.run.Some? {
      if !e.Ack? { RunStays(c, e); }
    } else if !e.Start? {
      IdleKeeps(c, e);
    }
  }

  lemma {:induction false} RunsIdbSettled(c: Chan, es: seq<Event>)
    requires SessionStart(c)
    ensures IdbSettled(Steps(c, es))
  {
    if es != [] {
      RunsIdbSettled(c, es[..|es| - 1]);
      RunsShape(c, es[..|es| - 1]);
      StepIdbSettled(Steps(c, es[..|es| - 1]), es[|es| - 1]);
    }
  }

  ghost predicate QuietSettled(s: Chan) {
    s.run.None? && s.acked == |s.issued| > 0 ==> Settled(s, s.issued[|s.issued| - 1].data)
  }

  ghost predicate AlwaysSettles(c: Chan) {
    forall es :: Solo(es) ==> QuietSettled(Steps(c, es))
  }

  lemma CalmSettles(c: Chan, es: seq<Event>)
    requires CalmStart(c) && Solo(es) && c.vss
    ensures QuietSettled(Steps(c, es))
  {
    RunsCalm(c, es);
    RunsIdbSettled(c, es);
    StepsVss(c, es);
    var s := Steps(c, es);
    if s.run.None? {
      forall id | id in s.world.wire ensures PutBounded(s, s.world.wire[id]) {
      }
    }
  }

  /** Under the same exact condition both stores agree on the last update once all are acknowledged. */
  lemma QuietMeansSettled(c: Chan)
    requires SoloStart(c) && c.vss
    ensures AlwaysSettles(c) <==> Calm(c)
  {
    if Calm(c) {
      forall es | Solo(es) ensures QuietSettled(Steps(c, es)) { CalmSettles(c, es); }
    } else {
      var es := LatePut(c);
      StepsSnoc(c, es, Ack);
      assert Solo(es + [Ack]);
      assert !QuietSettled(Steps(c, es + [Ack]));
    }
  }
}
