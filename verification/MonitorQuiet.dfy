/**
 * Quiet times: nothing fails any more and nobody else writes, but puts sent before may still land, in
 * any order and at any moment. Exactly when a running write comes back however that goes.
 */
module MonitorQuiet {
  import opened Common
  import opened MonitorWrite
  import opened MonitorSafety
  import opened MonitorRetry

  // ---------- How often puts on the wire can get in the way ----------

  /**
   * A write whose put is sent at the server's version v meets a conflict when a put at v lands first. It
   * then reads the server again, and that helps unless what landed has other bytes than its own; the
   * next put at v + 1 can be overtaken in turn. `all` are the versions of the puts on the wire, `other`
   * those that carry other bytes.
   */
  function Later(all: set<nat>, other: set<nat>, v: nat): nat
    decreases |all|
  {
    if v !in all then 0
    else Later(all - {v}, other, v + 1) + if v in other && v + 1 in all then 1 else 0
  }

  /** The most conflicts of a put that is sent at the server's version v. */
  function AtVersion(all: set<nat>, other: set<nat>, v: nat): nat {
    if v in all then 1 + Later(all, other, v) else 0
  }

  /** The most conflicts of a write whose get has yet to be answered; `differs`: the server has other bytes. */
  function AfterGet(all: set<nat>, other: set<nat>, v: nat, differs: bool): nat {
    if differs && AtVersion(all, other, v) > Later(all, other, v) then AtVersion(all, other, v) else Later(all, other, v)
  }

  /** The most conflicts of a put that is sent at version a. */
  function AfterPut(all: set<nat>, other: set<nat>, v: nat, differs: bool, a: nat): nat {
    if a == v then AtVersion(all, other, v) else 1 + AfterGet(all, other, v, differs)
  }

  predicate FewerFrom(a: set<nat>, b: set<nat>, v: nat) {
    forall x :: x in a && x >= v ==> x in b
  }

  lemma {:induction false} LaterMono(all: set<nat>, other: set<nat>, all': set<nat>, other': set<nat>, v: nat)
    requires FewerFrom(all', all, v) && FewerFrom(other', other, v)
    ensures Later(all', other', v) <= Later(all, other, v)
    decreases |all'|
  {
    if v in all' { LaterMono(all - {v}, other, all' - {v}, other', v + 1); }
  }

  lemma LaterStep(all: set<nat>, other: set<nat>, v: nat)
    requires v in all
    ensures Later(all, other, v) == Later(all, other, v + 1) + if v in other && v + 1 in all then 1 else 0
  {
    LaterMono(all, other, all - {v}, other, v + 1);
    LaterMono(all - {v}, other, all, other, v + 1);
  }

  /** Puts that go away without being accepted only make things better. */
  lemma FewerPuts(all: set<nat>, other: set<nat>, all': set<nat>, other': set<nat>, v: nat, differs: bool, a: nat)
    requires FewerFrom(all', all, v) && FewerFrom(other', other, v)
    ensures AfterGet(all', other', v, differs) <= AfterGet(all, other, v, differs)
    ensures AfterPut(all', other', v, differs, a) <= AfterPut(all, other, v, differs, a)
  {
    LaterMono(all, other, all', other', v);
  }

  /** So does one that lands. */
  lemma PutLands(all: set<nat>, other: set<nat>, all': set<nat>, other': set<nat>, v: nat, differs: bool, differs': bool, a: nat)
    requires FewerFrom(all', all, v + 1) && FewerFrom(other', other, v + 1) && v in all && (differs' ==> v in other)
    ensures AfterGet(all', other', v + 1, differs') <= AfterGet(all, other, v, differs)
    ensures AfterPut(all', other', v + 1, differs', a) <= AfterPut(all, other, v, differs, a)
  {
    LaterMono(all, other, all', other', v + 1);
    LaterStep(all, other, v);
  }

  /** Landing the right one keeps the worst. */
  lemma WorstLands(all: set<nat>, other: set<nat>, all': set<nat>, other': set<nat>, v: nat, differs': bool)
    requires FewerFrom(all, all', v + 1) && FewerFrom(other, other', v + 1) && v in all && (v in other ==> differs')
    ensures AfterGet(all', other', v + 1, differs') >= Later(all, other, v)
  {
    LaterMono(all', other', all, other, v + 1);
    LaterStep(all, other, v);
  }

  // ---------- The same for a running write ----------

  function PutVersions(w: World, awaited: nat): set<nat> {
    set id | id in w.wire && w.wire[id].Put? && id != awaited :: w.wire[id].version
  }

  function OtherVersions(w: World, awaited: nat, data: Bytes): set<nat> {
    set id | id in w.wire && w.wire[id].Put? && id != awaited && w.wire[id].value != data :: w.wire[id].version
  }

  predicate Differs(server: Option<Stored>, data: Bytes) {
    server.None? || server.value.value != data
  }

  function GetWorst(w: World, awaited: nat, data: Bytes): nat {
    AfterGet(PutVersions(w, awaited), OtherVersions(w, awaited, data), Version(w.server), Differs(w.server, data))
  }

  function PutWorst(w: World, awaited: nat, data: Bytes, a: nat): nat {
    AfterPut(PutVersions(w, awaited), OtherVersions(w, awaited, data), Version(w.server), Differs(w.server, data), a)
  }

  /** The put the write awaits is not in its own way. */
  function Awaited(c: Chan): nat
    requires c.run.Some?
  {
    if c.run.value.pc.AwaitPut? then c.run.value.pc.id else c.world.nextId
  }

  predicate Spent(c: Chan)
    requires c.run.Some?
  {
    c.run.value.conflictRetries >= MAX_CONFLICT_RETRIES
  }

  /** The most conflicts the running write can still be made to meet before it returns. */
  function Conflicts(c: Chan): nat
    requires c.run.Some?
  {
    var w, data := c.world, c.run.value.data;
    match c.run.value.pc
    case AwaitPut(id, a) =>
      if id !in w.replies then PutWorst(w, id, data, a)
      else if w.replies[id] == Accepted then 0
      else if Spent(c) then PutWorst(w, id, data, a)
      else 1 + GetWorst(w, id, data)
    case AwaitGet(id) =>
      if id !in w.replies then GetWorst(w, w.nextId, data)
      else if !w.replies[id].Found? || !Differs(w.replies[id].obj, data) then 0
      else PutWorst(w, w.nextId, data, Version(w.replies[id].obj))
    case AwaitIdb => 0
    case AwaitSameIdb => 0
    case Sleeping => if c.vss then PutWorst(w, w.nextId, data, Cached(c)) else 0
    case Returned => 0
  }

  function RetriesLeft(c: Chan): int
    requires c.run.Some?
  {
    MAX_CONFLICT_RETRIES - c.run.value.conflictRetries
  }

  predicate Safe(c: Chan)
    requires c.run.Some?
  {
    Conflicts(c) <= RetriesLeft(c)
  }

  /** Events of quiet times: requests are answered, IndexedDB works, timers fire, LDK hands over more. */
  predicate FaultFree(e: Event) {
    e.Issue? || e.Start? || e.Serve? || e.Deliver? || e.IdbOk? || e.Wake?
  }

  predicate Quiet(es: seq<Event>) {
    forall i :: 0 <= i < |es| ==> FaultFree(es[i])
  }

  /** The event the write is waiting for. */
  predicate Turn(c: Chan, e: Event) {
    c.run.Some? && c.run.value.pc != Returned && e == NextQuiet(c)
  }

  /** How often in a run that event came. */
  function Turns(c: Chan, es: seq<Event>): nat {
    if es == [] then 0
    else Turns(c, es[..|es| - 1]) + if Turn(Steps(c, es[..|es| - 1]), es[|es| - 1]) then 1 else 0
  }

  /** Turns until a safe write has returned. */
  function TurnsLeft(c: Chan): nat
    requires c.run.Some?
  {
    var w, n := c.world, Conflicts(c);
    match c.run.value.pc
    case AwaitPut(id, _) =>
      if id !in w.replies then 4 * n + 3
      else if w.replies[id] == Accepted then 2
      else if Spent(c) then 5
      else 4 * n + 2
    case AwaitGet(id) =>
      if id !in w.replies then 4 * n + 5
      else if !w.replies[id].Found? || !Differs(w.replies[id].obj, c.run.value.data) then 2
      else 4 * n + 4
    case AwaitIdb => 1
    case AwaitSameIdb => 1
    case Sleeping => if c.vss then 4 * n + 4 else 2
    case Returned => 0
  }

  /** Attempts until then. */
  function AttemptsLeft(c: Chan): nat
    requires c.run.Some?
  {
    var w, n := c.world, Conflicts(c);
    match c.run.value.pc
    case AwaitPut(id, _) =>
      if id !in w.replies then n
      else if w.replies[id] == Accepted then 0
      else if Spent(c) then n + 1
      else n
    case AwaitGet(id) =>
      if id !in w.replies then n + 1
      else if !w.replies[id].Found? || !Differs(w.replies[id].obj, c.run.value.data) then 0
      else n + 1
    case AwaitIdb => 0
    case AwaitSameIdb => 0
    case Sleeping => n + 1
    case Returned => 0
  }

  // ---------- A safe write stays safe and gets on ----------

  /** d is no worse off than c, and better by `turn`. */
  predicate GetsOn(c: Chan, d: Chan, turn: nat) {
    && c.run.Some? && d.run.Some? && Safe(d)
    && TurnsLeft(d) + turn <= TurnsLeft(c)
    && d.run.value.attempts + AttemptsLeft(d) <= c.run.value.attempts + AttemptsLeft(c)
  }

  /** Every put that counts in one world is on the wire of the other and counts there. */
  predicate Counted(w: World, i: nat, w': World, j: nat) {
    forall id :: id in w.wire && w.wire[id].Put? && id != i ==> id in w'.wire && w'.wire[id] == w.wire[id] && id != j
  }

  lemma MoreVersions(w: World, i: nat, w': World, j: nat, data: Bytes)
    requires Counted(w, i, w', j)
    ensures PutVersions(w, i) <= PutVersions(w', j) && OtherVersions(w, i, data) <= OtherVersions(w', j, data)
  {
    forall v | v in PutVersions(w, i) ensures v in PutVersions(w', j) {
      var id :| id in w.wire && w.wire[id].Put? && id != i && w.wire[id].version == v;
      assert w'.wire[id].version == v;
    }
    forall v | v in OtherVersions(w, i, data) ensures v in OtherVersions(w', j, data) {
      var id :| id in w.wire && w.wire[id].Put? && id != i && w.wire[id].value != data && w.wire[id].version == v;
      assert w'.wire[id].version == v;
    }
  }

  /** The same puts count and the server is the same. */
  lemma SameWorst(w: World, i: nat, w': World, j: nat, data: Bytes, a: nat)
    requires Counted(w, i, w', j) && Counted(w', j, w, i) && w'.server == w.server
    ensures GetWorst(w', j, data) == GetWorst(w, i, data) && PutWorst(w', j, data, a) == PutWorst(w, i, data, a)
  {
    MoreVersions(w, i, w', j, data);
    MoreVersions(w', j, w, i, data);
    assert PutVersions(w, i) == PutVersions(w', j) && OtherVersions(w, i, data) == OtherVersions(w', j, data);
  }

  /** Serving some other request. */
  lemma ServedWorst(w: World, id: nat, awaited: nat, data: Bytes, a: nat)
    requires id in w.wire && id != awaited
    ensures var w' := ServeRequest(w, id);
      GetWorst(w', awaited, data) <= GetWorst(w, awaited, data) && PutWorst(w', awaited, data, a) <= PutWorst(w, awaited, data, a)
  {
    var w' := ServeRequest(w, id);
    var v, d := Version(w.server), Differs(w.server, data);
    var all, other := PutVersions(w, awaited), OtherVersions(w, awaited, data);
    var all', other' := PutVersions(w', awaited), OtherVersions(w', awaited, data);
    MoreVersions(w', awaited, w, awaited, data);
    if w.wire[id].Put? && w.wire[id].version == v {
      PutLands(all, other, all', other', v, d, Differs(w'.server, data), a);
    } else {
      FewerPuts(all, other, all', other', v, d, a);
    }
  }

  lemma ServeOther(c: Chan, id: nat)
    requires Shape(c) && c.run.Some? && Safe(c) && !Turn(c, Serve(id))
    ensures GetsOn(c, Step(c, Serve(id)), 0)
  {
    if id in c.world.wire {
      ServedWorst(c.world, id, Awaited(c), c.run.value.data,
                  if c.run.value.pc.AwaitPut? then c.run.value.pc.version else Cached(c));
      if c.run.value.pc.AwaitGet? && c.run.value.pc.id in c.world.replies && c.world.replies[c.run.value.pc.id].Found? {
        ServedWorst(c.world, id, Awaited(c), c.run.value.data, Version(c.world.replies[c.run.value.pc.id].obj));
      }
    }
  }

  /** Serving the awaited request. */
  lemma ServeAwaited(c: Chan, id: nat)
    requires Shape(c) && c.run.Some? && Safe(c) && Turn(c, Serve(id))
    ensures GetsOn(c, Step(c, Serve(id)), 1)
  {
    var d := Step(c, Serve(id));
    assert id in c.world.wire && id in d.world.replies;
    if c.run.value.pc.AwaitPut? {
      if d.world.replies[id] == Conflict { AnsweredWorst(c.world, id, id, c.run.value.data, c.run.value.pc.version); }
    } else {
      AnsweredWorst(c.world, id, c.world.nextId, c.run.value.data, Version(c.world.server));
    }
  }

  /** An answer that leaves the server alone. */
  lemma AnsweredWorst(w: World, id: nat, awaited: nat, data: Bytes, a: nat)
    requires id in w.wire && (w.wire[id].Put? ==> id == awaited && w.wire[id].version != Version(w.server))
    ensures var w' := ServeRequest(w, id);
      GetWorst(w', awaited, data) == GetWorst(w, awaited, data) && PutWorst(w', awaited, data, a) == PutWorst(w, awaited, data, a)
  {
    SameWorst(w, awaited, ServeRequest(w, id), awaited, data, a);
  }

  /** A request that has just been sent, awaited or a get, changes nothing. */
  lemma PostedWorst(w: World, r: Request, awaited: nat, data: Bytes, a: nat)
    requires WellWired(w) && awaited !in w.wire
    ensures var w', n := Post(w, r), if r.Put? then w.nextId else w.nextId + 1;
      GetWorst(w', n, data) == GetWorst(w, awaited, data) && PutWorst(w', n, data, a) == PutWorst(w, awaited, data, a)
  {
    var w', n := Post(w, r), if r.Put? then w.nextId else w.nextId + 1;
    SameWorst(w, awaited, w', n, data, a);
  }

  ghost predicate WellWired(w: World) {
    forall id :: id in w.wire ==> id < w.nextId
  }

  /** The attempt at version a, from any state in which `awaited` is off the wire. */
  lemma AttemptWorst(c: Chan, awaited: nat)
    requires c.run.Some? && WellWired(c.world) && c.vss && awaited !in c.world.wire && c.world.nextId !in c.world.replies
    ensures Conflicts(Attempt(c)) == PutWorst(c.world, awaited, c.run.value.data, Cached(c))
  {
    PostedWorst(c.world, Put(Cached(c), c.run.value.data, c.acked), awaited, c.run.value.data, Cached(c));
  }

  lemma DeliverPut(c: Chan)
    requires Shape(c) && c.run.Some? && Safe(c) && c.run.value.pc.AwaitPut? && Turn(c, Deliver)
    ensures GetsOn(c, Step(c, Deliver), 1)
  {
    if c.world.replies[c.run.value.pc.id] != Accepted {
      if Spent(c) { DeliverSpent(c); } else { DeliverConflict(c); }
    }
  }

  lemma DeliverSpent(c: Chan)
    requires Shape(c) && c.run.Some? && Safe(c) && c.run.value.pc.AwaitPut? && Spent(c)
    requires c.run.value.pc.id in c.world.replies && c.world.replies[c.run.value.pc.id] == Conflict
    ensures GetsOn(c, BackOff(c), 1)
  {
    SameOff(c.world, c.run.value.pc.id, c.world.nextId, c.run.value.data, Cached(c));
  }

  lemma DeliverConflict(c: Chan)
    requires Shape(c) && c.run.Some? && Safe(c) && c.run.value.pc.AwaitPut? && !Spent(c)
    requires c.run.value.pc.id in c.world.replies && c.world.replies[c.run.value.pc.id] == Conflict
    ensures GetsOn(c, OnConflict(c), 1)
  {
    PostedWorst(c.world, Get, c.run.value.pc.id, c.run.value.data, Cached(c));
  }

  lemma SameOff(w: World, i: nat, j: nat, data: Bytes, a: nat)
    requires i !in w.wire && j !in w.wire
    ensures GetWorst(w, i, data) == GetWorst(w, j, data) && PutWorst(w, i, data, a) == PutWorst(w, j, data, a)
  {
    SameWorst(w, i, w, j, data, a);
  }

  lemma DeliverGet(c: Chan)
    requires Shape(c) && c.run.Some? && Safe(c) && c.run.value.pc.AwaitGet? && Turn(c, Deliver)
    ensures GetsOn(c, Step(c, Deliver), 1)
  {
    var obj := c.world.replies[c.run.value.pc.id].obj;
    if Differs(obj, c.run.value.data) {
      AttemptWorst(c.(cached := Some(Version(obj))), c.world.nextId);
    }
  }

  lemma WakeUp(c: Chan)
    requires Shape(c) && c.run.Some? && Safe(c) && c.run.value.pc == Sleeping
    ensures GetsOn(c, Step(c, Wake), 1)
  {
    if c.vss { AttemptWorst(c.(run := Some(Awake(c.run.value))), c.world.nextId); }
  }

  /** Anything that is neither awaited nor served changes nothing that matters. */
  lemma Idle(c: Chan, e: Event)
    requires Shape(c) && c.run.Some? && Safe(c) && FaultFree(e) && !e.Serve? && !Turn(c, e)
    ensures GetsOn(c, Step(c, e), 0)
  {
    assert Step(c, e) == c || Step(c, e) == c.(issued := Step(c, e).issued);
  }

  lemma SafeStep(c: Chan, e: Event)
    requires Shape(c) && c.run.Some? && Safe(c) && FaultFree(e)
    ensures GetsOn(c, Step(c, e), if Turn(c, e) then 1 else 0)
  {
    if e.Serve? {
      if Turn(c, e) { ServeAwaited(c, e.id); } else { ServeOther(c, e.id); }
    } else if !Turn(c, e) {
      Idle(c, e);
    } else if c.run.value.pc.AwaitPut? {
      DeliverPut(c);
    } else if c.run.value.pc.AwaitGet? {
      DeliverGet(c);
    } else if e.Wake? {
      WakeUp(c);
    }
  }

  /** However quiet times go, a safe write uses up its turns and attempts. */
  lemma {:induction false} SafeRuns(c: Chan, es: seq<Event>)
    requires Shape(c) && c.run.Some? && Safe(c) && Quiet(es)
    ensures Shape(Steps(c, es)) && GetsOn(c, Steps(c, es), Turns(c, es))
  {
    if es != [] {
      var front, e := es[..|es| - 1], es[|es| - 1];
      SafeRuns(c, front);
      SafeStep(Steps(c, front), e);
      StepShape(Steps(c, front), e);
    }
  }

  lemma NoTurnsLeft(c: Chan)
    requires c.run.Some? && TurnsLeft(c) == 0
    ensures AboutToAck(c)
  {
  }

  // ---------- An unsafe write can be kept from returning for ever ----------

  ghost predicate Unsafe(c: Chan) {
    Shape(c) && c.run.Some? && c.run.value.conflictRetries <= MAX_CONFLICT_RETRIES && !Safe(c)
  }

  /** A put on the wire at the server's version; one with other bytes if there is such a one. */
  lemma PickLanding(c: Chan) returns (id: nat)
    requires c.run.Some? && Version(c.world.server) in PutVersions(c.world, Awaited(c))
    ensures id in c.world.wire && c.world.wire[id].Put? && id != Awaited(c)
    ensures c.world.wire[id].version == Version(c.world.server)
    ensures Version(c.world.server) in OtherVersions(c.world, Awaited(c), c.run.value.data) ==>
      c.world.wire[id].value != c.run.value.data
  {
    var v, data := Version(c.world.server), c.run.value.data;
    if v in OtherVersions(c.world, Awaited(c), data) {
      id :| id in c.world.wire && c.world.wire[id].Put? && id != Awaited(c) && c.world.wire[id].value != data
            && c.world.wire[id].version == v;
    } else {
      id :| id in c.world.wire && c.world.wire[id].Put? && id != Awaited(c) && c.world.wire[id].version == v;
    }
  }

  /** Landing it keeps the worst: every put above its version is still there. */
  lemma LandedWorst(w: World, id: nat, awaited: nat, data: Bytes)
    requires id in w.wire && w.wire[id].Put? && id != awaited && w.wire[id].version == Version(w.server)
    requires Version(w.server) in OtherVersions(w, awaited, data) ==> w.wire[id].value != data
    ensures GetWorst(ServeRequest(w, id), awaited, data)
      >= Later(PutVersions(w, awaited), OtherVersions(w, awaited, data), Version(w.server))
  {
    var w', v := ServeRequest(w, id), Version(w.server);
    var all, other := PutVersions(w, awaited), OtherVersions(w, awaited, data);
    var all', other' := PutVersions(w', awaited), OtherVersions(w', awaited, data);
    assert w.wire[id].version in all;
    forall x | x in all && x >= v + 1 ensures x in all' {
      var i :| i in w.wire && w.wire[i].Put? && i != awaited && w.wire[i].version == x;
      assert i in w'.wire && w'.wire[i].version == x;
    }
    forall x | x in other && x >= v + 1 ensures x in other' {
      var i :| i in w.wire && w.wire[i].Put? && i != awaited && w.wire[i].value != data && w.wire[i].version == x;
      assert i in w'.wire && w'.wire[i].version == x;
    }
    WorstLands(all, other, all', other', v, Differs(w'.server, data));
  }

  /** Keeps the write from returning: its turn comes, or a put leaves the wire. */
  ghost predicate Worsens(c: Chan, e: Event) {
    && FaultFree(e) && Unsafe(Step(c, e))
    && (Turn(c, e) || |Step(c, e).world.wire| < |c.world.wire|)
  }

  lemma ServeShrinks(w: World, id: nat)
    requires id in w.wire
    ensures |ServeRequest(w, id).wire| < |w.wire|
  {
    assert ServeRequest(w, id).wire.Keys == w.wire.Keys - {id};
    assert |w.wire.Keys| == |w.wire|;
  }

  lemma LandWorsens(c: Chan) returns (e: Event)
    requires Unsafe(c)
    requires c.run.value.pc.AwaitPut? || c.run.value.pc.AwaitGet?
    requires c.run.value.pc.id !in c.world.replies
    requires Version(c.world.server) in PutVersions(c.world, Awaited(c))
    requires if c.run.value.pc.AwaitPut? then c.run.value.pc.version == Version(c.world.server)
             else RetriesLeft(c) < Later(PutVersions(c.world, Awaited(c)),
                                         OtherVersions(c.world, Awaited(c), c.run.value.data), Version(c.world.server))
    ensures Worsens(c, e)
  {
    var id := PickLanding(c);
    e := Serve(id);
    StepShape(c, e);
    ServeShrinks(c.world, id);
    LandedWorst(c.world, id, Awaited(c), c.run.value.data);
  }

  lemma PutWorsens(c: Chan) returns (e: Event)
    requires Unsafe(c) && c.run.value.pc.AwaitPut? && c.run.value.pc.id !in c.world.replies
    ensures Worsens(c, e)
  {
    var id, a := c.run.value.pc.id, c.run.value.pc.version;
    if a == Version(c.world.server) {
      e := LandWorsens(c);
    } else {
      e := Serve(id);
      StepShape(c, e);
      AnsweredWorst(c.world, id, id, c.run.value.data, a);
    }
  }

  lemma ConflictWorsens(c: Chan) returns (e: Event)
    requires Unsafe(c) && c.run.value.pc.AwaitPut? && c.run.value.pc.id in c.world.replies
    ensures Worsens(c, e)
  {
    e := Deliver;
    StepShape(c, e);
    PostedWorst(c.world, Get, c.run.value.pc.id, c.run.value.data, Cached(c));
    SameOff(c.world, c.run.value.pc.id, c.world.nextId, c.run.value.data, Cached(c));
  }

  lemma GetWorsens(c: Chan) returns (e: Event)
    requires Unsafe(c) && c.run.value.pc.AwaitGet? && c.run.value.pc.id !in c.world.replies
    ensures Worsens(c, e)
  {
    var v, data := Version(c.world.server), c.run.value.data;
    var all, other := PutVersions(c.world, c.world.nextId), OtherVersions(c.world, c.world.nextId, data);
    if Differs(c.world.server, data) && RetriesLeft(c) < AtVersion(all, other, v) {
      e := Serve(c.run.value.pc.id);
      StepShape(c, e);
      AnsweredWorst(c.world, c.run.value.pc.id, c.world.nextId, data, v);
    } else {
      e := LandWorsens(c);
    }
  }

  lemma FoundWorsens(c: Chan) returns (e: Event)
    requires Unsafe(c) && c.run.value.pc.AwaitGet? && c.run.value.pc.id in c.world.replies
    ensures Worsens(c, e)
  {
    e := Deliver;
    StepShape(c, e);
    var obj := c.world.replies[c.run.value.pc.id].obj;
    AttemptWorst(c.(cached := Some(Version(obj))), c.world.nextId);
  }

  lemma WakeWorsens(c: Chan) returns (e: Event)
    requires Unsafe(c) && c.run.value.pc == Sleeping
    ensures Worsens(c, e)
  {
    e := Wake;
    StepShape(c, e);
    AttemptWorst(c.(run := Some(Awake(c.run.value))), c.world.nextId);
  }

  lemma UnsafeStep(c: Chan) returns (e: Event)
    requires Unsafe(c)
    ensures Worsens(c, e)
  {
    var pc := c.run.value.pc;
    if pc == Sleeping { e := WakeWorsens(c); }
    else if pc.AwaitPut? {
      if pc.id in c.world.replies { e := ConflictWorsens(c); } else { e := PutWorsens(c); }
    } else {
      if pc.id in c.world.replies { e := FoundWorsens(c); } else { e := GetWorsens(c); }
    }
  }

  lemma {:induction false} TurnsJoin(c: Chan, es: seq<Event>, fs: seq<Event>)
    ensures Turns(c, es + fs) == Turns(c, es) + Turns(Steps(c, es), fs)
  {
    if fs == [] {
      assert es + fs == es;
    } else {
      var all := es + fs;
      assert all[..|all| - 1] == es + fs[..|fs| - 1];
      TurnsJoin(c, es, fs[..|fs| - 1]);
      StepsJoin(c, es, fs[..|fs| - 1]);
    }
  }

  /** A quiet run in which the write's turn comes as often as one likes and it does not return. */
  lemma {:induction false} KeptOut(c: Chan, n: nat) returns (es: seq<Event>)
    requires Unsafe(c)
    ensures Quiet(es) && Turns(c, es) >= n && !AboutToAck(Steps(c, es))
    decreases n, |c.world.wire|
  {
    if n == 0 {
      es := [];
    } else {
      var e := UnsafeStep(c);
      var d := Step(c, e);
      var rest := KeptOut(d, if Turn(c, e) then n - 1 else n);
      es := [e] + rest;
      TurnsJoin(c, [e], rest);
      StepsJoin(c, [e], rest);
      StepsSnoc(c, [], e);
      assert [] + [e] == [e];
      assert [e][..0] == [];
    }
  }

  // ---------- Exactly when it returns ----------

  /** However quiet times go, the write has returned once its turn has come 25 times. */
  ghost predicate AlwaysReturns(c: Chan) {
    forall es :: Quiet(es) && Turns(c, es) >= 25 ==> AboutToAck(Steps(c, es))
  }

  /**
   * Once faults and foreign writes stop, a write returns under every schedule of what is still on the wire
   * if and only if those puts cannot make it meet more conflicts than it has conflict retries left. This
   * holds wherever the write is, after any faults and whatever other devices did before.
   */
  lemma ReturnsIff(c: Chan, es: seq<Event>)
    requires SessionStart(c) && Steps(c, es).run.Some?
    ensures AlwaysReturns(Steps(c, es)) <==> Conflicts(Steps(c, es)) <= RetriesLeft(Steps(c, es))
  {
    var s := Steps(c, es);
    RunsShape(c, es);
    RunsCounters(c, es);
    if Safe(s) {
      forall fs | Quiet(fs) && Turns(s, fs) >= 25 ensures AboutToAck(Steps(s, fs)) {
        SafeRuns(s, fs);
        NoTurnsLeft(Steps(s, fs));
      }
    } else {
      var fs := KeptOut(s, 25);
    }
  }

  /** The bounds behind it, for every quiet run of a write that is safe. */
  lemma SafeReturns(c: Chan, es: seq<Event>)
    requires Shape(c) && c.run.Some? && Safe(c) && Quiet(es)
    ensures var t := Steps(c, es);
      && t.run.Some? && t.run.value.attempts <= c.run.value.attempts + AttemptsLeft(c)
      && (Turns(c, es) >= TurnsLeft(c) ==> AboutToAck(t))
    ensures AttemptsLeft(c) <= Conflicts(c) + 1 && TurnsLeft(c) <= 4 * Conflicts(c) + 5
  {
    SafeRuns(c, es);
    if Turns(c, es) >= TurnsLeft(c) { NoTurnsLeft(Steps(c, es)); }
  }

  // ---------- Without other writers ----------

  lemma OneVersion(all: set<nat>, other: set<nat>, v: nat, differs: bool, a: nat)
    requires v + 1 !in all
    ensures Later(all, other, v) == 0 && AtVersion(all, other, v) <= 1
    ensures AfterGet(all, other, v, differs) <= 1 && AfterPut(all, other, v, differs, a) <= 2
    ensures v !in all ==> AfterGet(all, other, v, differs) == 0 && AfterPut(all, other, v, differs, a) <= 1
    ensures a == v ==> AfterPut(all, other, v, differs, a) <= 1
  {
  }

  /** No put of the session is ahead of the server. */
  lemma SoloVersions(c: Chan)
    requires SoloInv(c) && c.run.Some?
    ensures Version(c.world.server) + 1 !in PutVersions(c.world, Awaited(c))
    ensures NoneLate(c.world) && Cached(c) < Version(c.world.server) ==>
      Version(c.world.server) !in PutVersions(c.world, Awaited(c))
  {
    forall id | id in c.world.wire && c.world.wire[id].Put?
      ensures c.world.wire[id].version <= Version(c.world.server)
      ensures NoneLate(c.world) && Cached(c) < Version(c.world.server) ==>
        c.world.wire[id].version < Version(c.world.server)
    {
      assert PutBounded(c, c.world.wire[id]);
    }
  }

  /** A late put can cost one conflict more. */
  lemma SoloConflicts(c: Chan)
    requires SoloInv(c) && c.run.Some? && !Spent(c)
    ensures Conflicts(c) <= 2 && TurnsLeft(c) <= 12 && AttemptsLeft(c) <= 3
  {
    SoloVersions(c);
    var all, other := PutVersions(c.world, Awaited(c)), OtherVersions(c.world, Awaited(c), c.run.value.data);
    var v, differs := Version(c.world.server), Differs(c.world.server, c.run.value.data);
    OneVersion(all, other, v, differs, Cached(c));
    if c.run.value.pc.AwaitGet? && c.run.value.pc.id in c.world.replies {
      OneVersion(all, other, v, differs, Version(c.world.replies[c.run.value.pc.id].obj));
    }
    if c.run.value.pc.AwaitPut? { SoloPut(c); }
  }

  lemma SoloPut(c: Chan)
    requires SoloInv(c) && c.run.Some? && c.run.value.pc.AwaitPut? && !Spent(c)
    ensures Conflicts(c) <= 2
  {
    SoloVersions(c);
    OneVersion(PutVersions(c.world, Awaited(c)), OtherVersions(c.world, Awaited(c), c.run.value.data),
               Version(c.world.server), Differs(c.world.server, c.run.value.data), Cached(c));
  }

  lemma CalmConflicts(c: Chan)
    requires CalmInv(c) && c.run.Some? && !Spent(c)
    ensures Conflicts(c) <= 1 && TurnsLeft(c) <= 8 && AttemptsLeft(c) <= 2
  {
    SoloVersions(c);
    var all, other := PutVersions(c.world, Awaited(c)), OtherVersions(c.world, Awaited(c), c.run.value.data);
    var v, differs := Version(c.world.server), Differs(c.world.server, c.run.value.data);
    OneVersion(all, other, v, differs, Cached(c));
    OneVersion(all, other, v, differs, v);
  }

  /**
   * In a session without other writers, once faults stop, a write with a conflict retry left returns after
   * at most two more attempts, when its turn has come eight times, whatever else is served in between. If
   * an earlier page's put may still be on its way it takes two retries, three attempts and twelve turns.
   */
  lemma QuietReturns(c: Chan, es: seq<Event>, fs: seq<Event>)
    requires SoloStart(c) && Solo(es) && Quiet(fs) && Steps(c, es).run.Some?
    requires RetriesLeft(Steps(c, es)) >= if Calm(c) then 1 else 2
    ensures var s := Steps(c, es);
      var t := Steps(s, fs);
      && t.run.Some? && t.run.value.attempts <= s.run.value.attempts + (if Calm(c) then 2 else 3)
      && (Turns(s, fs) >= (if Calm(c) then 8 else 12) ==> AboutToAck(t))
  {
    var s := Steps(c, es);
    RunsSolo(c, es);
    SoloConflicts(s);
    if Calm(c) {
      RunsCalm(c, es);
      CalmConflicts(s);
    }
    SafeReturns(s, fs);
  }

  // ---------- A put of the device itself that lands too late ----------

  /** A put at version 1 awaits its conflict, the object is gone, and an old first put is still on its way. */
  ghost predicate Trap(c: Chan, retries: nat) {
    && Shape(c) && c.vss && c.cached == Some(1) && c.world.server == None
    && 0 in c.world.wire && c.world.wire[0].Put? && c.world.wire[0].version == 0
    && c.run.Some? && c.run.value.pc.AwaitPut? && c.run.value.pc.id != 0 && c.run.value.pc.id in c.world.wire
    && c.run.value.conflictRetries == retries
  }

  lemma TrapRound(c: Chan, k: nat)
    requires Trap(c, k) && k < MAX_CONFLICT_RETRIES
    ensures Trap(Steps(c, [Serve(c.run.value.pc.id), Deliver] + [Fail]), k + 1)
  {
    var id := c.run.value.pc.id;
    var c1 := Step(c, Serve(id));
    StepShape(c, Serve(id));
    var c2 := Step(c1, Deliver);
    StepShape(c1, Deliver);
    StepShape(c2, Fail);
    StepsOfTwo(c, Serve(id), Deliver);
    StepsSnoc(c, [Serve(id), Deliver], Fail);
  }

  lemma {:induction false} TrapRounds(c: Chan, k: nat, n: nat) returns (es: seq<Event>)
    requires Trap(c, k) && k <= n <= MAX_CONFLICT_RETRIES
    ensures Trap(Steps(c, es), n) && Solo(es)
    decreases n - k
  {
    if k == n {
      es := [];
    } else {
      var round := [Serve(c.run.value.pc.id), Deliver] + [Fail];
      TrapRound(c, k);
      var rest := TrapRounds(Steps(c, round), k + 1, n);
      es := round + rest;
      StepsJoin(c, round, rest);
    }
  }

  /** A first put in the trap's making: timed out, still on the wire, and the same write put again. */
  lemma TwoFirstPuts(u: Update)
    ensures var c := Steps(EmptyStore, [Issue(u), Start, Fail, Wake]);
      && Shape(c) && c.vss && c.issued == [u] && c.acked == 0 && c.world.server == None && c.world.nextId == 2
      && c.run.Some? && c.run.value.pc == AwaitPut(1, 0)
      && c.world.wire == map[0 := Put(0, u.data, 0), 1 := Put(0, u.data, 0)] && c.world.replies == map[]
  {
    RunsShape(EmptyStore, [Issue(u), Start, Fail, Wake]);
    StepsOfFour(EmptyStore, Issue(u), Start, Fail, Wake);
  }

  lemma FirstAcknowledged(c: Chan, u: Update)
    requires Shape(c) && c.vss && c.issued == [u] && c.acked == 0 && c.world.server == None && c.world.nextId == 2
    requires c.run.Some? && c.run.value.pc == AwaitPut(1, 0)
    requires c.world.wire == map[0 := Put(0, u.data, 0), 1 := Put(0, u.data, 0)] && c.world.replies == map[]
    ensures var d := Steps(c, [Serve(1), Deliver, IdbOk, Ack]);
      && Shape(d) && d.vss && d.issued == [u] && d.acked == 1 && d.cached == Some(1) && d.world.nextId == 2
      && d.run == None && d.world.wire == map[0 := Put(0, u.data, 0)] && d.world.replies == map[1 := Accepted]
  {
    StepsShape(c, [Serve(1), Deliver, IdbOk, Ack]);
    StepsOfFour(c, Serve(1), Deliver, IdbOk, Ack);
    var d := Step(c, Serve(1));
    assert d.world.wire == map[0 := Put(0, u.data, 0)] && d.world.replies == map[1 := Accepted];
  }

  lemma SecondTrapped(c: Chan, u: Update, v: Update)
    requires Shape(c) && c.vss && c.issued == [u] && c.acked == 1 && c.cached == Some(1) && c.world.nextId == 2
    requires c.run == None && c.world.wire == map[0 := Put(0, u.data, 0)] && c.world.replies == map[1 := Accepted]
    ensures Trap(Steps(c, [Issue(v), Start] + [ForeignDelete]), 0)
  {
    StepsShape(c, [Issue(v), Start] + [ForeignDelete]);
    StepsOfTwo(c, Issue(v), Start);
    StepsSnoc(c, [Issue(v), Start], ForeignDelete);
  }

  lemma TrapUnsafe(c: Chan)
    requires Trap(c, MAX_CONFLICT_RETRIES - 1)
    ensures Conflicts(c) > RetriesLeft(c) == 1
  {
    assert c.world.wire[0].version in PutVersions(c.world, c.run.value.pc.id);
  }

  /**
   * A retry left is not enough after a foreign write: a put of this device that once timed out, for an
   * update acknowledged long ago, is still on the wire when another device deletes the object. With one
   * retry left, no fault and no foreign write from then on, there is a schedule on which the write never
   * returns.
   */
  lemma LateOwnPut(u: Update, v: Update) returns (es: seq<Event>)
    ensures SessionStart(EmptyStore)
    ensures var s := Steps(EmptyStore, es);
      s.run.Some? && RetriesLeft(s) == 1 && Conflicts(s) > 1 && !AlwaysReturns(s)
  {
    var a, b, d := [Issue(u), Start, Fail, Wake], [Serve(1), Deliver, IdbOk, Ack], [Issue(v), Start] + [ForeignDelete];
    TwoFirstPuts(u);
    FirstAcknowledged(Steps(EmptyStore, a), u);
    SecondTrapped(Steps(Steps(EmptyStore, a), b), u, v);
    StepsJoin(EmptyStore, a, b);
    StepsJoin(EmptyStore, a + b, d);
    var rest := TrapRounds(Steps(EmptyStore, a + b + d), 0, MAX_CONFLICT_RETRIES - 1);
    es := a + b + d + rest;
    StepsJoin(EmptyStore, a + b + d, rest);
    TrapUnsafe(Steps(EmptyStore, es));
    ReturnsIff(EmptyStore, es);
  }
}
