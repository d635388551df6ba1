/**
 * The retry loop as the source writes it, against a host that plays one key's outside world from a
 * script. A script is a finite stretch of what happens; the loop stops mid-await when it runs out.
 * Its every effect is the state machine of module MonitorWrite, so the theorems there are about it.
 */
module Persister {
  import opened Common
  import opened MonitorWrite
  import MS = MonitorSafety
  import MR = MonitorRetry

  /** What the loop is awaiting. */
  datatype Waiting = ForReply(id: nat) | ForIdb | ForSleep

  predicate Settles(w: World, what: Waiting, e: Event) {
    match what
    case ForReply(id) => e.Fail? || (e.Deliver? && id in w.replies)
    case ForIdb => e.IdbOk? || e.IdbFail?
    case ForSleep => e.Wake?
  }

  function WaitingOf(pc: Pc): Option<Waiting> {
    match pc
    case AwaitPut(id, _) => Some(ForReply(id))
    case AwaitGet(id) => Some(ForReply(id))
    case AwaitIdb => Some(ForIdb)
    case AwaitSameIdb => Some(ForIdb)
    case Sleeping => Some(ForSleep)
    case Returned => None
  }

  /** Scripts for one write: the queue events belong to the caller. */
  predicate OneWrite(es: seq<Event>) {
    forall i :: 0 <= i < |es| ==> !es[i].Issue? && !es[i].Start? && !es[i].Ack?
  }

  /** An event that does not settle the awaited promise only changes the outside. */
  lemma Passive(c: Chan, e: Event)
    requires c.run.Some? && WaitingOf(c.run.value.pc).Some? && OneWrite([e])
    requires !Settles(c.world, WaitingOf(c.run.value.pc).value, e)
    requires c.run.value.pc.AwaitGet? ==>
      (c.run.value.pc.id in c.world.replies ==> c.world.replies[c.run.value.pc.id].Found?)
    ensures Step(c, e) == c.(world := Outside(c.world, e))
  {
    assert [e][0] == e;
  }

  /** Events i to j of the script, one after the other. */
  ghost function Play(c: Chan, script: seq<Event>, i: nat, j: nat): Chan
    requires i <= j <= |script|
    decreases j - i
  {
    if i == j then c else Step(Play(c, script, i, j - 1), script[j - 1])
  }

  lemma {:induction false} PlayIsSteps(c: Chan, script: seq<Event>, i: nat, j: nat)
    requires i <= j <= |script|
    ensures Play(c, script, i, j) == Steps(c, script[i..j])
    decreases j - i
  {
    if i < j {
      PlayIsSteps(c, script, i, j - 1);
      StepsSnoc(c, script[i..j - 1], script[j - 1]);
      assert script[i..j] == script[i..j - 1] + [script[j - 1]];
    }
  }

  lemma {:induction false} PlayJoin(c: Chan, script: seq<Event>, i: nat, j: nat, k: nat)
    requires i <= j <= k <= |script|
    ensures Play(c, script, i, k) == Play(Play(c, script, i, j), script, j, k)
    decreases k - j
  {
    if j < k { PlayJoin(c, script, i, j, k - 1); }
  }

  lemma PlayShape(c: Chan, script: seq<Event>, i: nat, j: nat)
    requires MS.Shape(c) && i <= j <= |script|
    ensures MS.Shape(Play(c, script, i, j))
  {
    PlayIsSteps(c, script, i, j);
    MR.StepsShape(c, script[i..j]);
  }

  class Host {
    var world: World
    const script: seq<Event>
    var pos: nat
    var unavailable: nat
    var recovered: nat

    ghost predicate Valid()
      reads this
    {
      pos <= |script| && OneWrite(script)
    }

    constructor (world: World, script: seq<Event>)
      requires OneWrite(script)
      ensures Valid() && this.world == world && this.script == script && pos == 0
      ensures unavailable == 0 && recovered == 0
    {
      this.world, this.script, pos, unavailable, recovered := world, script, 0, 0, 0;
    }

    /** `setTimeout`, `fetch` or IndexedDB: plays the script until the awaited promise settles. */
    method Await(what: Waiting, ghost c: Chan) returns (e: Option<Event>)
      requires Valid() && MS.Shape(c) && c.run.Some? && WaitingOf(c.run.value.pc) == Some(what) && c.world == world
      modifies this`world, this`pos
      ensures Valid() && old(pos) <= pos
      ensures e.Some? ==>
        && old(pos) < pos && e.value == script[pos - 1] && Settles(world, what, e.value)
        && Play(c, script, old(pos), pos - 1) == c.(world := world)
      ensures e.None? ==> pos == |script| && Play(c, script, old(pos), |script|) == c.(world := world)
      ensures MS.Shape(c.(world := world))
    {
      while pos < |script|
        invariant old(pos) <= pos <= |script|
        invariant Play(c, script, old(pos), pos) == c.(world := world)
        invariant MS.Shape(c.(world := world))
      {
        var next := script[pos];
        if Settles(world, what, next) {
          pos := pos + 1;
          return Some(next);
        }
        Passive(c.(world := world), next);
        MS.StepShape(c.(world := world), next);
        world := Outside(world, next);
        pos := pos + 1;
      }
      return None;
    }

    /** Sends a request; the reply is awaited separately. */
    method Send(r: Request) returns (id: nat)
      modifies this`world
      ensures id == old(world).nextId && world == Post(old(world), r)
    {
      id := world.nextId;
      world := Post(world, r);
    }
  }

  function Lookup(cache: map<string, nat>, key: string): Option<nat> {
    if key in cache then Some(cache[key]) else None
  }

  /** Returned, with the recovered callback fired if the degraded one had. */
  function Finished(c: Chan): Chan
    requires c.run.Some?
  {
    var r := c.run.value;
    c.(run := Some(r.(pc := Returned, recovered := r.recovered + if r.degraded then 1 else 0)))
  }

  /** How a `try` went: its value, a version conflict, any other exception, or the script ended meanwhile. */
  datatype Tried = Fine | ConflictThrown | Thrown | Halted

  class Persister {
    const vss: bool
    var versionCache: map<string, nat>

    constructor (vss: bool)
      ensures this.vss == vss && versionCache == map[]
    {
      this.vss, versionCache := vss, map[];
    }

    /** Waits for the put of machine state `x`; on success the new version is cached. */
    method PutObject(host: Host, key: string, id: nat, version: nat, ghost x: Chan) returns (r: Tried, ghost y: Chan)
      requires host.Valid() && MS.Shape(x) && x.run.Some? && x.run.value.pc == AwaitPut(id, version)
      requires x.world == host.world && x.cached == Lookup(versionCache, key)
      modifies this`versionCache, host`world, host`pos
      ensures host.Valid() && old(host.pos) <= host.pos
      ensures y == Play(x, host.script, old(host.pos), host.pos)
      ensures MS.Shape(x.(world := host.world))
      ensures var w := x.(world := host.world);
        match r
        case Fine => y == w.(cached := Some(version + 1), run := Some(x.run.value.(pc := AwaitIdb)))
        case ConflictThrown => y == OnConflict(w)
        case Thrown => y == BackOff(w)
        case Halted => y == w && host.pos == |host.script|
      ensures r != Halted ==> old(host.pos) < host.pos
      ensures versionCache == if r == Fine then old(versionCache)[key := version + 1] else old(versionCache)
    {
      var e := host.Await(ForReply(id), x);
      if e.None? {
        return Halted, x.(world := host.world);
      }
      y := Step(x.(world := host.world), e.value);
      if e.value.Fail? {
        r := Thrown;
      } else if host.world.replies[id] == Accepted {
        versionCache := versionCache[key := version + 1];
        r := Fine;
      } else {
        r := ConflictThrown;
      }
    }

    /** `idbPut`; on success the row is this update's. */
    method IdbPut(host: Host, data: Bytes, seqNo: nat, ghost x: Chan) returns (r: Tried, ghost y: Chan)
      requires host.Valid() && MS.Shape(x) && x.run.Some? && WaitingOf(x.run.value.pc) == Some(ForIdb)
      requires x.world == host.world && x.run.value.data == data && x.acked == seqNo
      modifies host`world, host`pos
      ensures host.Valid() && old(host.pos) <= host.pos
      ensures y == Play(x, host.script, old(host.pos), host.pos)
      ensures match r
        case Fine => host.world.idb == Some(Row(data, seqNo)) && y == Finished(x.(world := host.world))
        case ConflictThrown => false
        case Thrown =>
          && MS.Shape(x.(world := host.world))
          && y == if x.run.value.pc == AwaitIdb then BackOff(x.(world := host.world)) else Attempt(x.(world := host.world))
        case Halted => y == x.(world := host.world) && host.pos == |host.script|
      ensures r != Halted ==> old(host.pos) < host.pos
    {
      var e := host.Await(ForIdb, x);
      if e.None? {
        return Halted, x.(world := host.world);
      }
      y := Step(x.(world := host.world), e.value);
      if e.value.IdbOk? {
        host.world := host.world.(idb := Some(Row(data, seqNo)));
        r := Fine;
      } else {
        if e.value.applied { host.world := host.world.(idb := Some(Row(data, seqNo))); }
        r := Thrown;
      }
    }

    /** Waits for the get of machine state `x`. */
    method GetObject(host: Host, id: nat, ghost x: Chan) returns (r: Tried, obj: Option<Stored>, ghost y: Chan)
      requires host.Valid() && MS.Shape(x) && x.run.Some? && x.run.value.pc == AwaitGet(id) && x.world == host.world
      modifies host`world, host`pos
      ensures host.Valid() && old(host.pos) <= host.pos
      ensures y == Play(x, host.script, old(host.pos), host.pos)
      ensures MS.Shape(x.(world := host.world))
      ensures r != ConflictThrown
      ensures r == Fine ==> y == OnFound(x.(world := host.world), obj)
      ensures r == Thrown ==> y == Attempt(x.(world := host.world))
      ensures r == Halted ==> y == x.(world := host.world) && host.pos == |host.script|
      ensures r != Halted ==> old(host.pos) < host.pos
    {
      obj := None;
      var e := host.Await(ForReply(id), x);
      if e.None? {
        return Halted, None, x.(world := host.world);
      }
      y := Step(x.(world := host.world), e.value);
      if e.value.Fail? {
        r := Thrown;
      } else {
        r, obj := Fine, host.world.replies[id].obj;
      }
    }

    /**
     * The conflict branch's inner `try`, after the get was sent: re-read the server, repair the cached
     * version, compare. `Thrown` means the loop continues at its top, from the ghost state `z`.
     */
    method Resolve(host: Host, key: string, data: Bytes, seqNo: nat, id: nat, ghost x: Chan)
      returns (r: Tried, ghost z: Chan)
      requires host.Valid() && MS.Shape(x) && x.run.Some? && x.run.value.pc == AwaitGet(id) && x.world == host.world
      requires x.cached == Lookup(versionCache, key) && x.run.value.data == data && x.acked == seqNo
      modifies this`versionCache, host`world, host`pos
      ensures host.Valid() && old(host.pos) <= host.pos
      ensures z.run.Some? && z.world == host.world && z.cached == Lookup(versionCache, key)
      ensures versionCache - {key} == old(versionCache) - {key}
      ensures r != ConflictThrown && SameLoop(z, x) && Notified(z, x, r == Fine)
      ensures Play(x, host.script, old(host.pos), host.pos) == if r == Thrown then Attempt(z) else z
      ensures r == Fine ==> z.run.value.pc == Returned
      ensures r == Thrown ==> AtTop(z, host.world, Lookup(versionCache, key)) && old(host.pos) < host.pos
      ensures r == Halted ==> z.run.value.pc != Returned && host.pos == |host.script|
    {
      var got, obj;
      ghost var y;
      got, obj, y := GetObject(host, id, x);
      z := x.(world := host.world);
      if got != Fine {
        return got, z;
      }
      if obj.None? {
        versionCache := versionCache[key := 0];
        return Thrown, z.(cached := Some(0));
      }
      versionCache := versionCache[key := obj.value.version];
      z := z.(cached := Some(obj.value.version));
      if obj.value.value != data {
        return Thrown, z;
      }
      ghost var p := host.pos;
      PlayShape(x, host.script, old(host.pos), p);
      r, z := SameDataPut(host, data, seqNo, y);
      PlayJoin(x, host.script, old(host.pos), p, host.pos);
    }

    /** `idbPut` inside the conflict branch, where a failure goes straight back to the top of the loop. */
    method SameDataPut(host: Host, data: Bytes, seqNo: nat, ghost x: Chan) returns (r: Tried, ghost z: Chan)
      requires host.Valid() && MS.Shape(x) && x.run.Some? && x.run.value.pc == AwaitSameIdb
      requires x.world == host.world && x.run.value.data == data && x.acked == seqNo
      modifies host`world, host`pos
      ensures host.Valid() && old(host.pos) <= host.pos
      ensures z.run.Some? && z.world == host.world && z.cached == x.cached
      ensures r != ConflictThrown && SameLoop(z, x) && Notified(z, x, r == Fine)
      ensures Play(x, host.script, old(host.pos), host.pos) == if r == Thrown then Attempt(z) else z
      ensures r == Fine ==> z.run.value.pc == Returned
      ensures r == Thrown ==> MS.QueueShape(z) && MS.WireShape(z.world, MS.Begun(z)) && old(host.pos) < host.pos
      ensures r == Halted ==> z.run.value.pc != Returned && host.pos == |host.script|
    {
      ghost var y;
      r, y := IdbPut(host, data, seqNo, x);
      z := if r == Fine then y else x.(world := host.world);
    }

    /** The first half of the outer `try`: send the put at the cached version and await it. */
    method PutToVss(host: Host, key: string, data: Bytes, seqNo: nat, ghost c: Chan) returns (r: Tried, ghost y: Chan, ghost z: Chan)
      requires host.Valid() && AtTop(c, host.world, Lookup(versionCache, key)) && c.vss && vss
      requires c.run.value.data == data && c.acked == seqNo
      modifies this`versionCache, host`world, host`pos
      ensures host.Valid() && old(host.pos) <= host.pos
      ensures versionCache - {key} == old(versionCache) - {key}
      ensures y == Play(Attempt(c), host.script, old(host.pos), host.pos) && MS.Shape(y)
      ensures z == Attempt(c).(world := host.world) && MS.Shape(z)
      ensures match r
        case Fine => y == z.(cached := Lookup(versionCache, key), run := Some(z.run.value.(pc := AwaitIdb)))
        case ConflictThrown => y == OnConflict(z)
        case Thrown => y == BackOff(z)
        case Halted => y == z && host.pos == |host.script|
      ensures r != Fine ==> Lookup(versionCache, key) == z.cached
      ensures r != Halted ==> old(host.pos) < host.pos
    {
      ghost var x := Attempt(c);
      MS.AttemptShape(c);
      var version := GetOr(Lookup(versionCache, key), 0);
      var id := host.Send(Put(version, data, seqNo));
      r, y := PutObject(host, key, id, version, x);
      PlayShape(x, host.script, old(host.pos), host.pos);
      z := x.(world := host.world);
    }

    /** The outer `try`: VSS first, then IndexedDB. `z` is the state the `catch` starts from. */
    method TryBoth(host: Host, key: string, data: Bytes, seqNo: nat, ghost c: Chan)
      returns (r: Tried, ghost z: Chan)
      requires host.Valid() && AtTop(c, host.world, Lookup(versionCache, key)) && c.vss == vss
      requires c.run.value.data == data && c.acked == seqNo
      modifies this`versionCache, host`world, host`pos
      ensures host.Valid() && old(host.pos) <= host.pos
      ensures MS.Shape(z) && z.world == host.world && z.cached == Lookup(versionCache, key)
      ensures versionCache - {key} == old(versionCache) - {key}
      ensures SameLoop(z, c) && Notified(z, c, r == Fine)
      ensures Play(Attempt(c), host.script, old(host.pos), host.pos) ==
        if r == ConflictThrown then OnConflict(z) else if r == Thrown then BackOff(z) else z
      ensures r == Fine ==> z.run.value.pc == Returned
      ensures r == ConflictThrown ==> vss && z.run.value.pc.AwaitPut?
      ensures r == Thrown ==> z.run.value.pc.AwaitPut? || z.run.value.pc == AwaitIdb
      ensures r == Halted ==> z.run.value.pc != Returned && host.pos == |host.script|
      ensures r != Halted ==> old(host.pos) < host.pos
    {
      ghost var x := Attempt(c);
      MS.AttemptShape(c);
      if vss {
        r, x, z := PutToVss(host, key, data, seqNo, c);
        if r != Fine {
          return;
        }
      }
      ghost var p := host.pos;
      ghost var done;
      r, done := IdbPut(host, data, seqNo, x);
      PlayJoin(Attempt(c), host.script, old(host.pos), p, host.pos);
      PlayShape(x, host.script, p, host.pos);
      z := if r == Fine then done else x.(world := host.world);
    }

    /**
     * `TryBoth`, then on a conflict with retries left the re-read. `ConflictThrown` now means the loop
     * continues at its top from `z`, `Thrown` that it sleeps first.
     */
    method TryOnce(host: Host, key: string, data: Bytes, seqNo: nat, conflictRetries: nat, ghost c: Chan)
      returns (r: Tried, retries: nat, ghost z: Chan)
      requires host.Valid() && AtTop(c, host.world, Lookup(versionCache, key)) && c.vss == vss
      requires c.run.value.data == data && c.acked == seqNo && c.run.value.conflictRetries == conflictRetries
      modifies this`versionCache, host`world, host`pos
      ensures host.Valid() && old(host.pos) <= host.pos
      ensures z.run.Some? && z.world == host.world && z.cached == Lookup(versionCache, key)
      ensures versionCache - {key} == old(versionCache) - {key}
      ensures SameWrite(z, c) && z.run.value.conflictRetries == retries && Notified(z, c, r == Fine)
      ensures Play(Attempt(c), host.script, old(host.pos), host.pos) ==
        if r == ConflictThrown then Attempt(z) else if r == Thrown then BackOff(z) else z
      ensures r == Fine ==> z.run.value.pc == Returned
      ensures r == ConflictThrown ==> AtTop(z, host.world, Lookup(versionCache, key))
      ensures r == Thrown ==> MS.Shape(z) && (z.run.value.pc.AwaitPut? || z.run.value.pc == AwaitIdb)
      ensures r == Halted ==> z.run.value.pc != Returned && host.pos == |host.script|
      ensures r == Fine || r == Halted || old(host.pos) < host.pos
    {
      retries := conflictRetries;
      r, z := TryBoth(host, key, data, seqNo, c);
      if r != ConflictThrown {
        return;
      }
      if conflictRetries >= MAX_CONFLICT_RETRIES {
        r := Thrown;
        return;
      }
      retries := conflictRetries + 1;
      ghost var p := host.pos;
      MS.ConflictShape(z);
      var id := host.Send(Get);
      r, z := Resolve(host, key, data, seqNo, id, OnConflict(z));
      PlayJoin(Attempt(c), host.script, old(host.pos), p, host.pos);
      if r == Thrown {
        r := ConflictThrown;
      }
    }

    /** The end of the `catch`: sleep, then grow the backoff and perhaps report the store unavailable. */
    method Sleep(host: Host, ghost z: Chan) returns (woke: bool, ghost y: Chan)
      requires host.Valid() && MS.Shape(z) && z.run.Some? && z.world == host.world
      requires z.run.value.pc.AwaitPut? || z.run.value.pc == AwaitIdb
      modifies host`world, host`pos
      ensures host.Valid() && old(host.pos) <= host.pos
      ensures y == Slept(z, woke).(world := host.world)
      ensures Play(BackOff(z), host.script, old(host.pos), host.pos) == if woke then Attempt(y) else y
      ensures if woke then AtTop(y, host.world, z.cached) && old(host.pos) < host.pos else host.pos == |host.script|
    {
      ghost var x := BackOff(z);
      assert MS.Shape(x);
      var e := host.Await(ForSleep, x);
      woke := e.Some?;
      y := Slept(z, woke).(world := host.world);
    }

    /**
     * `persistWithRetry`. Whatever the script, the loop's world, cached version, callbacks and progress
     * are those of the state machine started on this write; it returns exactly when the machine does.
     */
    method PersistWithRetry(host: Host, key: string, data: Bytes, seqNo: nat, ghost start: Chan)
      returns (done: bool, ghost end: Chan)
      requires host.Valid() && AtTop(start, host.world, Lookup(versionCache, key)) && start.vss == vss
      requires start.run == Some(NewRun(data)) && start.acked == seqNo
      modifies this`versionCache, host
      ensures host.Valid() && old(host.pos) <= host.pos
      ensures end == Play(Attempt(start), host.script, old(host.pos), host.pos)
      ensures end.world == host.world && end.cached == Lookup(versionCache, key) && end.run.Some?
      ensures done <==> end.run.value.pc == Returned
      ensures !done ==> host.pos == |host.script|
      ensures versionCache - {key} == old(versionCache) - {key}
      ensures host.unavailable == old(host.unavailable) + end.run.value.unavailable
      ensures host.recovered == old(host.recovered) + end.run.value.recovered
    {
      var backoff: nat := INITIAL_BACKOFF_MS;
      var totalWaitMs: nat := 0;
      var degradedNotified := false;
      var conflictRetries: nat := 0;
      ghost var c := start;
      while true
        invariant host.Valid() && old(host.pos) <= host.pos
        invariant AtTop(c, host.world, Lookup(versionCache, key)) && c.vss == vss
        invariant c.run.value.data == data && c.acked == seqNo
        invariant Attempt(c) == Play(Attempt(start), host.script, old(host.pos), host.pos)
        invariant Locals(c.run.value, backoff, totalWaitMs, degradedNotified, conflictRetries)
        invariant host.unavailable == old(host.unavailable) + c.run.value.unavailable
        invariant host.recovered == old(host.recovered) && c.run.value.recovered == 0
        invariant versionCache - {key} == old(versionCache) - {key}
        decreases |host.script| - host.pos
      {
        ghost var p := host.pos;
        var r;
        ghost var z;
        r, conflictRetries, z := TryOnce(host, key, data, seqNo, conflictRetries, c);
        PlayJoin(Attempt(start), host.script, old(host.pos), p, host.pos);
        if r == Halted {
          return false, z;
        }
        if r == Fine {
          if degradedNotified { host.recovered := host.recovered + 1; }
          return true, z;
        }
        if r == ConflictThrown {
          c := z;
          continue;
        }
        ghost var q := host.pos;
        var woke;
        woke, c := Sleep(host, z);
        PlayJoin(Attempt(start), host.script, old(host.pos), q, host.pos);
        if !woke {
          return false, c;
        }
        AwakeLocals(z.run.value, backoff, totalWaitMs, degradedNotified, conflictRetries);
        totalWaitMs := totalWaitMs + backoff;
        backoff := Min(backoff * 2, MAX_BACKOFF_MS);
        if !degradedNotified && totalWaitMs >= DEGRADED_THRESHOLD_MS {
          degradedNotified := true;
          host.unavailable := host.unavailable + 1;
        }
      }
    }
  }

  /** The loop's local variables are the machine's. */
  predicate Locals(r: Run, backoff: nat, totalWaitMs: nat, degradedNotified: bool, conflictRetries: nat) {
    && r.backoff == backoff && r.totalWaitMs == totalWaitMs
    && r.degraded == degradedNotified && r.conflictRetries == conflictRetries
  }

  lemma AwakeLocals(r: Run, backoff: nat, totalWaitMs: nat, degradedNotified: bool, conflictRetries: nat)
    requires Locals(r, backoff, totalWaitMs, degradedNotified, conflictRetries)
    ensures var total := totalWaitMs + backoff;
      var now := !degradedNotified && total >= DEGRADED_THRESHOLD_MS;
      && Locals(Awake(r), Min(backoff * 2, MAX_BACKOFF_MS), total, degradedNotified || now, conflictRetries)
      && Awake(r).unavailable == r.unavailable + if now then 1 else 0
  {
  }

  /** Asleep, or just past the sleep. */
  function Slept(c: Chan, woke: bool): Chan
    requires c.run.Some?
  {
    var b := BackOff(c);
    if woke then b.(run := Some(Awake(b.run.value))) else b
  }

  /** The loop is at its top: the next thing is an attempt. */
  ghost predicate AtTop(c: Chan, w: World, cached: Option<nat>) {
    && c.run.Some? && c.world == w && c.cached == cached
    && MS.QueueShape(c) && MS.WireShape(w, MS.Begun(c))
  }

  /** The recovered callback fires on return, if the degraded one had. */
  ghost predicate Notified(c: Chan, d: Chan, returned: bool)
    requires c.run.Some? && d.run.Some?
  {
    c.run.value.recovered == d.run.value.recovered + if returned && d.run.value.degraded then 1 else 0
  }

  /** Same write, same loop locals but the retry count, and same callbacks so far. */
  ghost predicate SameWrite(c: Chan, d: Chan) {
    && c.run.Some? && d.run.Some? && c.vss == d.vss && c.acked == d.acked && c.issued == d.issued
    && var r, q := c.run.value, d.run.value;
    && r.data == q.data && r.unavailable == q.unavailable
    && r.backoff == q.backoff && r.totalWaitMs == q.totalWaitMs && r.degraded == q.degraded
  }

  ghost predicate SameLoop(c: Chan, d: Chan) {
    SameWrite(c, d) && c.run.value.conflictRetries == d.run.value.conflictRetries
  }
}
