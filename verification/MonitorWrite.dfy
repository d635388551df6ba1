/**
 * One channel monitor's column of the two-store backup: the VSS object, the IndexedDB row, the
 * cached version, the puts and gets still on the wire, and the write that is running.
 *
 * `persistWithRetry` only ever touches the entries of its own key, so the stores are modelled one
 * key at a time; module Backup puts the columns together. An await splits the loop body: every
 * event below is either something the outside does (serve a request, write from another device)
 * or the settling of the promise the loop awaits. A request whose reply is lost stays on the wire
 * and may be served at any later time.
 */
module MonitorWrite {
  import opened Common

  const INITIAL_BACKOFF_MS: nat := 500
  const MAX_BACKOFF_MS: nat := 60_000
  const DEGRADED_THRESHOLD_MS: nat := 10_000
  const MAX_CONFLICT_RETRIES: nat := 5

  /** An update LDK hands over: its id and the serialized monitor. */
  datatype Update = Update(id: nat, data: Bytes)

  /** `origin` is the position of the update in this session, -1 for any other writer. */
  datatype Stored = Stored(value: Bytes, version: nat, origin: int)

  datatype Row = Row(value: Bytes, origin: int)

  datatype Request = Put(version: nat, value: Bytes, origin: int) | Get

  datatype Reply = Accepted | Conflict | Found(obj: Option<Stored>)

  /** Everything outside the persister that concerns one key. `taken` records every value the server ever stored, in order. */
  datatype World = World(
    server: Option<Stored>,
    idb: Option<Row>,
    wire: map<nat, Request>,
    replies: map<nat, Reply>,
    nextId: nat,
    taken: seq<Row>)

  datatype Pc =
    | AwaitPut(id: nat, version: nat)
    | AwaitIdb
    | AwaitGet(id: nat)
    | AwaitSameIdb
    | Sleeping
    | Returned

  /** The locals of one `persistWithRetry` call, then its history: attempts, sleeps, callbacks, a matching get. */
  datatype Run = Run(
    data: Bytes,
    pc: Pc,
    backoff: nat,
    totalWaitMs: nat,
    degraded: bool,
    conflictRetries: nat,
    attempts: nat,
    sleeps: seq<nat>,
    unavailable: nat,
    recovered: nat,
    seen: bool)

  /** `issued` are the updates handed over so far, `acks` the calls of `channel_monitor_updated`. */
  datatype Chan = Chan(
    vss: bool,
    world: World,
    cached: Option<nat>,
    issued: seq<Update>,
    acked: nat,
    acks: seq<nat>,
    run: Option<Run>)

  datatype Event =
    | Issue(update: Update)
    | Start
    | Ack
    | Serve(id: nat)
    | ForeignPut(value: Bytes)
    | ForeignDelete
    | Deliver
    | Fail
    | IdbOk
    | IdbFail(applied: bool)
    | Wake

  // ---------- The server ----------

  function Version(server: Option<Stored>): nat {
    if server.Some? then server.value.version else 0
  }

  function Origin(server: Option<Stored>): int {
    if server.Some? then server.value.origin else -1
  }

  /** A conditional write: taken exactly when the request carries the current version. */
  function ServePut(w: World, id: nat, p: Request): World
    requires p.Put?
  {
    var w' := w.(wire := w.wire - {id});
    if p.version == Version(w.server) then
      w'.(server := Some(Stored(p.value, p.version + 1, p.origin)),
          replies := w.replies[id := Accepted],
          taken := w.taken + [Row(p.value, p.origin)])
    else
      w'.(replies := w.replies[id := Conflict])
  }

  function ServeRequest(w: World, id: nat): World {
    if id !in w.wire then w
    else match w.wire[id]
      case Put(_, _, _) => ServePut(w, id, w.wire[id])
      case Get => w.(wire := w.wire - {id}, replies := w.replies[id := Found(w.server)])
  }

  function Outside(w: World, e: Event): World {
    if e.Serve? then ServeRequest(w, e.id)
    else if e.ForeignPut? then w.(server := Some(Stored(e.value, Version(w.server) + 1, -1)),
                                 taken := w.taken + [Row(e.value, -1)])
    else if e.ForeignDelete? then w.(server := None)
    else w
  }

  function Post(w: World, r: Request): World {
    w.(wire := w.wire[w.nextId := r], nextId := w.nextId + 1)
  }

  // ---------- The loop body, cut at its awaits ----------

  /** The version the loop sends: `versionCache.get(key) ?? 0`. */
  function Cached(c: Chan): nat {
    GetOr(c.cached, 0)
  }

  /** Top of the loop: send the put, or go straight to IndexedDB without a VSS client. */
  function Attempt(c: Chan): Chan
    requires c.run.Some?
  {
    var r := c.run.value;
    if !c.vss then
      c.(run := Some(r.(pc := AwaitIdb, attempts := r.attempts + 1)))
    else
      c.(world := Post(c.world, Put(Cached(c), r.data, c.acked)),
         run := Some(r.(pc := AwaitPut(c.world.nextId, Cached(c)), attempts := r.attempts + 1)))
  }

  function BackOff(c: Chan): Chan
    requires c.run.Some?
  {
    var r := c.run.value;
    c.(run := Some(r.(pc := Sleeping, sleeps := r.sleeps + [r.backoff])))
  }

  function OnConflict(c: Chan): Chan
    requires c.run.Some?
  {
    var r := c.run.value;
    if r.conflictRetries < MAX_CONFLICT_RETRIES then
      c.(world := Post(c.world, Get),
         run := Some(r.(pc := AwaitGet(c.world.nextId), conflictRetries := r.conflictRetries + 1)))
    else
      BackOff(c)
  }

  function OnFound(c: Chan, obj: Option<Stored>): Chan
    requires c.run.Some?
  {
    match obj
    case None => Attempt(c.(cached := Some(0)))
    case Some(o) =>
      var c' := c.(cached := Some(o.version));
      if o.value == c.run.value.data then
        c'.(run := Some(c.run.value.(pc := AwaitSameIdb, seen := true)))
      else
        Attempt(c')
  }

  function OnDeliver(c: Chan): Chan
    requires c.run.Some?
  {
    match c.run.value.pc
    case AwaitPut(id, version) =>
      if id !in c.world.replies then c
      else if c.world.replies[id] == Accepted then
        c.(cached := Some(version + 1), run := Some(c.run.value.(pc := AwaitIdb)))
      else OnConflict(c)
    case AwaitGet(id) =>
      if id in c.world.replies && c.world.replies[id].Found? then OnFound(c, c.world.replies[id].obj) else c
    case _ => c
  }

  function OnFail(c: Chan): Chan
    requires c.run.Some?
  {
    match c.run.value.pc
    case AwaitPut(_, _) => BackOff(c)
    case AwaitGet(_) => Attempt(c)
    case _ => c
  }

  function OnIdbOk(c: Chan): Chan
    requires c.run.Some?
  {
    var r := c.run.value;
    if r.pc == AwaitIdb || r.pc == AwaitSameIdb then
      c.(world := c.world.(idb := Some(Row(r.data, c.acked))),
         run := Some(r.(pc := Returned, recovered := r.recovered + if r.degraded then 1 else 0)))
    else c
  }

  function OnIdbFail(c: Chan, applied: bool): Chan
    requires c.run.Some?
  {
    var r := c.run.value;
    var c' := if applied then c.(world := c.world.(idb := Some(Row(r.data, c.acked)))) else c;
    match r.pc
    case AwaitIdb => BackOff(c')
    case AwaitSameIdb => Attempt(c')
    case _ => c
  }

  /** The sleep is over: total and next backoff are updated and the degraded callback may fire. */
  function Awake(r: Run): Run {
    var total := r.totalWaitMs + r.backoff;
    var now := !r.degraded && total >= DEGRADED_THRESHOLD_MS;
    r.(totalWaitMs := total,
       backoff := Min(r.backoff * 2, MAX_BACKOFF_MS),
       degraded := r.degraded || now,
       unavailable := r.unavailable + if now then 1 else 0)
  }

  function OnWake(c: Chan): Chan
    requires c.run.Some?
  {
    if c.run.value.pc != Sleeping then c else Attempt(c.(run := Some(Awake(c.run.value))))
  }

  function NewRun(data: Bytes): Run {
    Run(data, Sleeping, INITIAL_BACKOFF_MS, 0, false, 0, 0, [], 0, 0, false)
  }

  function OnStart(c: Chan): Chan {
    if c.run.Some? || c.acked >= |c.issued| then c
    else Attempt(c.(run := Some(NewRun(c.issued[c.acked].data))))
  }

  function OnAck(c: Chan): Chan {
    if c.run.Some? && c.run.value.pc == Returned && c.acked < |c.issued| then
      c.(run := None, acked := c.acked + 1, acks := c.acks + [c.issued[c.acked].id])
    else c
  }

  /** Runs a loop continuation, if a write is running at all. */
  function Resume(c: Chan, e: Event): Chan
    requires e.Deliver? || e.Fail? || e.IdbOk? || e.IdbFail? || e.Wake?
  {
    if c.run.None? then c
    else if e.Deliver? then OnDeliver(c)
    else if e.Fail? then OnFail(c)
    else if e.IdbOk? then OnIdbOk(c)
    else if e.IdbFail? then OnIdbFail(c, e.applied)
    else OnWake(c)
  }

  predicate IsOutside(e: Event) {
    e.Serve? || e.ForeignPut? || e.ForeignDelete?
  }

  /** One event. An event that cannot happen now changes nothing, so every script is a run. */
  function Step(c: Chan, e: Event): Chan {
    if e.Issue? then c.(issued := c.issued + [e.update])
    else if e.Start? then OnStart(c)
    else if e.Ack? then OnAck(c)
    else if IsOutside(e) then c.(world := Outside(c.world, e))
    else Resume(c, e)
  }

  function Steps(c: Chan, es: seq<Event>): Chan {
    if es == [] then c else Step(Steps(c, es[..|es| - 1]), es[|es| - 1])
  }

  lemma StepsSnoc(c: Chan, es: seq<Event>, e: Event)
    ensures Steps(c, es + [e]) == Step(Steps(c, es), e)
  {
    assert (es + [e])[..|es + [e]| - 1] == es;
  }

  lemma {:induction false} StepsJoin(c: Chan, es: seq<Event>, fs: seq<Event>)
    ensures Steps(c, es + fs) == Steps(Steps(c, es), fs)
  {
    if fs == [] {
      assert es + fs == es;
    } else {
      var all := es + fs;
      assert all[..|all| - 1] == es + fs[..|fs| - 1];
      StepsJoin(c, es, fs[..|fs| - 1]);
    }
  }

  lemma StepsOfTwo(c: Chan, e: Event, f: Event)
    ensures Steps(c, [e, f]) == Step(Step(c, e), f)
  {
    StepsSnoc(c, [], e);
    StepsSnoc(c, [e], f);
    assert [] + [e] == [e] && [e] + [f] == [e, f];
  }

  lemma StepsOfFour(c: Chan, e: Event, f: Event, g: Event, h: Event)
    ensures Steps(c, [e, f, g, h]) == Step(Step(Step(Step(c, e), f), g), h)
  {
    StepsOfTwo(c, e, f);
    StepsOfTwo(Steps(c, [e, f]), g, h);
    StepsJoin(c, [e, f], [g, h]);
    assert [e, f] + [g, h] == [e, f, g, h];
  }
}
