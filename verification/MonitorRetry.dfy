/** How often `persistWithRetry` tries, sleeps and notifies, and exactly when it comes back. */
module MonitorRetry {
  import opened Common
  import opened MonitorWrite
  import opened MonitorSafety

  /** The n-th sleep, counted from 0. */
  function BackoffAt(n: nat): nat {
    Min(INITIAL_BACKOFF_MS * Pow2(n), MAX_BACKOFF_MS)
  }

  /** Time slept after n sleeps. */
  function TotalWait(n: nat): nat {
    if n == 0 then 0 else TotalWait(n - 1) + BackoffAt(n - 1)
  }

  lemma BackoffDoubles(n: nat)
    ensures Min(BackoffAt(n) * 2, MAX_BACKOFF_MS) == BackoffAt(n + 1)
  {
  }

  lemma {:induction false} DegradedAfterFive(n: nat)
    ensures TotalWait(n) >= DEGRADED_THRESHOLD_MS <==> n >= 5
  {
    if n > 5 {
      DegradedAfterFive(n - 1);
    } else {
      assert Pow2(0) == 1 && Pow2(1) == 2 && Pow2(2) == 4 && Pow2(3) == 8 && Pow2(4) == 16;
      assert TotalWait(1) == 500 && TotalWait(2) == 1500 && TotalWait(3) == 3500;
      assert TotalWait(4) == 7500 && TotalWait(5) == 15500;
    }
  }

  /** Sleeps that are over. */
  function Slept(r: Run): int {
    |r.sleeps| - if r.pc == Sleeping then 1 else 0
  }

  ghost predicate Counters(r: Run) {
    && r.conflictRetries <= MAX_CONFLICT_RETRIES
    && Slept(r) >= 0
    && r.backoff == BackoffAt(Slept(r))
    && r.totalWaitMs == TotalWait(Slept(r))
    && (forall n :: 0 <= n < |r.sleeps| ==> r.sleeps[n] == BackoffAt(n))
    && (r.degraded <==> Slept(r) >= 5)
    && r.unavailable == (if Slept(r) >= 5 then 1 else 0)
    && r.recovered == (if r.pc == Returned && r.degraded then 1 else 0)
    && Tries(r)
  }

  /** Every attempt after the first answers one finished sleep or one conflict retry. */
  ghost predicate Tries(r: Run) {
    match r.pc
    case AwaitPut(_, _) => r.attempts == |r.sleeps| + r.conflictRetries + 1
    case AwaitIdb => r.attempts == |r.sleeps| + r.conflictRetries + 1
    case AwaitGet(_) => r.attempts == |r.sleeps| + r.conflictRetries
    case AwaitSameIdb => r.attempts == |r.sleeps| + r.conflictRetries
    case Sleeping => r.attempts == |r.sleeps| + r.conflictRetries
    case Returned => |r.sleeps| + r.conflictRetries <= r.attempts <= |r.sleeps| + r.conflictRetries + 1
  }

  ghost predicate RunCounters(c: Chan) {
    c.run.Some? ==> Counters(c.run.value)
  }

  lemma WakeCounters(r: Run)
    requires Counters(r) && r.pc == Sleeping
    ensures var a := Awake(r).(pc := AwaitIdb, attempts := r.attempts + 1); Counters(a)
  {
    BackoffDoubles(Slept(r));
    DegradedAfterFive(Slept(r) + 1);
    DegradedAfterFive(Slept(r));
  }

  lemma AttemptCounters(c: Chan)
    requires c.run.Some?
    requires Counters(c.run.value.(pc := AwaitIdb, attempts := c.run.value.attempts + 1))
    ensures RunCounters(Attempt(c))
  {
  }

  lemma BackOffCounters(c: Chan)
    requires c.run.Some? && RunCounters(c) && (c.run.value.pc.AwaitPut? || c.run.value.pc == AwaitIdb)
    ensures RunCounters(BackOff(c))
  {
    var r, s := c.run.value, BackOff(c).run.value;
    assert Slept(s) == Slept(r) && s.sleeps[|r.sleeps|] == BackoffAt(|r.sleeps|);
  }

  lemma ConflictCounters(c: Chan)
    requires c.run.Some? && RunCounters(c) && c.run.value.pc.AwaitPut?
    ensures RunCounters(OnConflict(c))
  {
    BackOffCounters(c);
  }

  lemma FoundCounters(c: Chan, obj: Option<Stored>)
    requires c.run.Some? && RunCounters(c) && c.run.value.pc.AwaitGet?
    ensures RunCounters(OnFound(c, obj))
  {
    AttemptCounters(c.(cached := Some(if obj.Some? then obj.value.version else 0)));
  }

  lemma DeliverCounters(c: Chan)
    requires c.run.Some? && RunCounters(c)
    ensures RunCounters(OnDeliver(c))
  {
    var r := c.run.value;
    if r.pc.AwaitPut? {
      ConflictCounters(c);
    } else if r.pc.AwaitGet? && r.pc.id in c.world.replies && c.world.replies[r.pc.id].Found? {
      FoundCounters(c, c.world.replies[r.pc.id].obj);
    }
  }

  lemma FailCounters(c: Chan)
    requires c.run.Some? && RunCounters(c)
    ensures RunCounters(OnFail(c))
  {
    if c.run.value.pc.AwaitPut? { BackOffCounters(c); }
    else if c.run.value.pc.AwaitGet? { AttemptCounters(c); }
  }

  lemma IdbFailCounters(c: Chan, applied: bool)
    requires c.run.Some? && RunCounters(c)
    ensures RunCounters(OnIdbFail(c, applied))
  {
    var c' := if applied then c.(world := c.world.(idb := Some(Row(c.run.value.data, c.acked)))) else c;
    if c.run.value.pc == AwaitIdb { BackOffCounters(c'); }
    else if c.run.value.pc == AwaitSameIdb { AttemptCounters(c'); }
  }

  lemma ResumeCounters(c: Chan, e: Event)
    requires c.run.Some? && RunCounters(c) && (e.Deliver? || e.Fail? || e.IdbOk? || e.IdbFail? || e.Wake?)
    ensures RunCounters(Resume(c, e))
  {
    if e.Deliver? { DeliverCounters(c); }
    else if e.Fail? { FailCounters(c); }
    else if e.IdbOk? { }
    else if e.IdbFail? { IdbFailCounters(c, e.applied); }
    else if c.run.value.pc == Sleeping {
      WakeCounters(c.run.value);
      AttemptCounters(c.(run := Some(Awake(c.run.value))));
    }
  }

  lemma StepCounters(c: Chan, e: Event)
    requires RunCounters(c)
    ensures RunCounters(Step(c, e))
  {
    if e.Start? {
      if c.run.None? && c.acked < |c.issued| {
        assert Pow2(0) == 1;
        AttemptCounters(c.(run := Some(NewRun(c.issued[c.acked].data).(pc := Returned))));
      }
    } else if c.run.Some? && !IsOutside(e) && !e.Issue? && !e.Ack? {
      ResumeCounters(c, e);
    }
  }

  lemma {:induction false} RunsCounters(c: Chan, es: seq<Event>)
    requires c.run.None?
    ensures RunCounters(Steps(c, es))
  {
    if es != [] {
      RunsCounters(c, es[..|es| - 1]);
      StepCounters(Steps(c, es[..|es| - 1]), es[|es| - 1]);
    }
  }

  /**
   * The retry discipline, for every run under any faults: the n-th sleep lasts min(500 * 2^n, 60000) ms,
   * there are at most six more attempts than sleeps, the degraded callback has fired exactly when five
   * sleeps are over, and never twice, and the recovered callback fires on return exactly when it had.
   */
  lemma RetryBounds(c: Chan, es: seq<Event>)
    requires SessionStart(c)
    ensures var s := Steps(c, es);
      s.run.Some? ==>
        var r := s.run.value;
        && (forall n :: 0 <= n < |r.sleeps| ==> r.sleeps[n] == Min(500 * Pow2(n), 60_000))
        && r.attempts <= |r.sleeps| + 6
        && r.unavailable == (if Slept(r) >= 5 then 1 else 0)
        && r.recovered == (if r.pc == Returned then r.unavailable else 0)
  {
    RunsCounters(c, es);
  }

  // ---------- When a conflict is looked into, counted on the run ----------

  /** A step sends a get. */
  predicate PostsGet(s: Chan, t: Chan) {
    t.world.nextId == s.world.nextId + 1 && s.world.nextId in t.world.wire && t.world.wire[s.world.nextId] == Get
  }

  /** How many gets the running write has sent so far. */
  function Gets(c: Chan, es: seq<Event>): nat {
    if es == [] then 0
    else
      var s, t := Steps(c, es[..|es| - 1]), Steps(c, es);
      if s.run.None? || t.run.None? then 0
      else Gets(c, es[..|es| - 1]) + if PostsGet(s, t) then 1 else 0
  }

  lemma GetStep(s: Chan, e: Event)
    requires Shape(s) && s.run.Some? && Step(s, e).run.Some?
    ensures Step(s, e).run.value.conflictRetries == s.run.value.conflictRetries + if PostsGet(s, Step(s, e)) then 1 else 0
  {
  }

  lemma {:induction false} GetsAreRetries(c: Chan, es: seq<Event>)
    requires SessionStart(c)
    ensures Steps(c, es).run.Some? ==> Steps(c, es).run.value.conflictRetries == Gets(c, es)
  {
    if es != [] {
      var s := Steps(c, es[..|es| - 1]);
      GetsAreRetries(c, es[..|es| - 1]);
      RunsShape(c, es[..|es| - 1]);
      if s.run.Some? && Steps(c, es).run.Some? { GetStep(s, es[|es| - 1]); }
    }
  }

  /**
   * A put that comes back as a conflict makes the write read the server again as long as it has sent fewer
   * than five gets; from then on it sleeps.
   */
  lemma ConflictIsReread(c: Chan, es: seq<Event>)
    requires SessionStart(c)
    ensures var s := Steps(c, es);
      s.run.Some? && s.run.value.pc.AwaitPut? && s.run.value.pc.id in s.world.replies
      && s.world.replies[s.run.value.pc.id] == Conflict ==>
        var t := Step(s, Deliver);
        && t.run.Some? && Gets(c, es) <= 5
        && if Gets(c, es) < 5 then PostsGet(s, t) && t.run.value.pc == AwaitGet(s.world.nextId)
           else t.run.value.pc == Sleeping && t.world == s.world
  {
    GetsAreRetries(c, es);
    RunsCounters(c, es);
  }

  // ---------- One good schedule: only what is awaited is served ----------

  /** The one event that can happen to a running write when the outside behaves. */
  function NextQuiet(c: Chan): Event
    requires c.run.Some?
  {
    match c.run.value.pc
    case AwaitPut(id, _) => if id in c.world.replies then Deliver else Serve(id)
    case AwaitGet(id) => if id in c.world.replies then Deliver else Serve(id)
    case AwaitIdb => IdbOk
    case AwaitSameIdb => IdbOk
    case Sleeping => Wake
    case Returned => Deliver
  }

  function QuietStep(c: Chan): Chan
    requires c.run.Some?
    ensures QuietStep(c).run.Some?
  {
    Step(c, NextQuiet(c))
  }

  /** Left alone, the write returns within `n` events and after at most `puts` more attempts. */
  predicate Returns(c: Chan, n: nat, puts: int)
    requires c.run.Some?
    decreases n
  {
    && puts >= 0
    && (c.run.value.pc == Returned
        || (n > 0 && var d := QuietStep(c);
            Returns(d, n - 1, puts - (d.run.value.attempts - c.run.value.attempts))))
  }

  lemma AttemptReturns(c: Chan)
    requires c.run.Some? && c.world.nextId !in c.world.replies
    requires c.vss ==> Cached(c) == Version(c.world.server)
    ensures Returns(Attempt(c), 3, 0)
  {
    var d := Attempt(c);
    if c.vss {
      var d1 := QuietStep(d);
      var d2 := QuietStep(d1);
      assert d2.run.value.pc == AwaitIdb;
      assert Returns(d2, 1, 0);
      assert Returns(d1, 2, 0);
    } else {
      assert d.run.value.pc == AwaitIdb;
      assert QuietStep(d).run.value.pc == Returned;
    }
  }

  lemma {:induction false} ReturnsMore(c: Chan, n: nat, m: nat, p: int, q: int)
    requires c.run.Some? && Returns(c, n, p) && n <= m && p <= q
    ensures Returns(c, m, q)
    decreases n
  {
    if c.run.value.pc != Returned {
      var d := QuietStep(c);
      var used := d.run.value.attempts - c.run.value.attempts;
      ReturnsMore(d, n - 1, m - 1, p - used, q - used);
    }
  }

  lemma AcceptedReturns(c: Chan)
    requires c.run.Some? && c.run.value.pc.AwaitPut?
    requires c.run.value.pc.id in c.world.replies && c.world.replies[c.run.value.pc.id] == Accepted
    ensures Returns(c, 2, 0)
  {
    var d := QuietStep(c);
    assert d.run.value.pc == AwaitIdb;
    assert Returns(d, 1, 0);
  }

  /** A get answered with the server's present state repairs the cached version. */
  lemma FreshGetReturns(c: Chan)
    requires c.run.Some? && Shape(c) && c.run.value.pc.AwaitGet?
    requires c.run.value.pc.id in c.world.replies && c.world.replies[c.run.value.pc.id] == Found(c.world.server)
    ensures Returns(c, 4, 1)
  {
    var d := QuietStep(c);
    var c' := c.(cached := Some(Version(c.world.server)));
    if d.run.value.pc == AwaitSameIdb {
      assert Returns(d, 1, 0);
      ReturnsMore(d, 1, 3, 0, 1);
    } else {
      assert d == Attempt(c');
      AttemptReturns(c');
    }
  }

  lemma GetReturns(c: Chan)
    requires c.run.Some? && Shape(c) && c.run.value.pc.AwaitGet? && c.run.value.pc.id in c.world.wire
    ensures Returns(c, 5, 1)
  {
    var d := QuietStep(c);
    StepShape(c, NextQuiet(c));
    FreshGetReturns(d);
  }

  lemma ConflictReturns(c: Chan)
    requires c.run.Some? && Shape(c) && c.run.value.pc.AwaitPut?
    requires c.run.value.pc.id in c.world.replies && c.world.replies[c.run.value.pc.id] == Conflict
    requires c.run.value.conflictRetries < MAX_CONFLICT_RETRIES
    ensures Returns(c, 6, 1)
  {
    var d := QuietStep(c);
    StepShape(c, NextQuiet(c));
    GetReturns(d);
  }

  lemma PutReturns(c: Chan)
    requires c.run.Some? && Shape(c) && c.run.value.pc.AwaitPut?
    requires c.run.value.conflictRetries < MAX_CONFLICT_RETRIES
    ensures Returns(c, 7, 1)
  {
    if c.run.value.pc.id in c.world.replies {
      if c.world.replies[c.run.value.pc.id] == Accepted {
        AcceptedReturns(c);
        ReturnsMore(c, 2, 7, 0, 1);
      } else {
        ConflictReturns(c);
        ReturnsMore(c, 6, 7, 1, 1);
      }
    } else {
      var d := QuietStep(c);
      StepShape(c, NextQuiet(c));
      if d.world.replies[d.run.value.pc.id] == Accepted {
        AcceptedReturns(d);
        ReturnsMore(d, 2, 6, 0, 1);
      } else {
        ConflictReturns(d);
      }
    }
  }

  lemma AnyAttemptReturns(c: Chan)
    requires c.run.Some? && QueueShape(c) && WireShape(c.world, Begun(c))
    requires c.run.value.conflictRetries < MAX_CONFLICT_RETRIES
    ensures Returns(Attempt(c), 7, 1)
  {
    AttemptShape(c);
    if c.vss {
      PutReturns(Attempt(c));
    } else {
      assert Returns(Attempt(c), 1, 0);
      ReturnsMore(Attempt(c), 1, 7, 0, 1);
    }
  }

  /** On the schedule that serves only what is awaited, a write with a conflict retry left returns. */
  lemma PromptReturns(c: Chan)
    requires c.run.Some? && Shape(c) && c.run.value.conflictRetries < MAX_CONFLICT_RETRIES
    ensures Returns(c, 8, 2)
  {
    var r := c.run.value;
    if r.pc.AwaitPut? {
      PutReturns(c);
      ReturnsMore(c, 7, 8, 1, 2);
    } else if r.pc.AwaitGet? && r.pc.id in c.world.wire {
      GetReturns(c);
      ReturnsMore(c, 5, 8, 1, 2);
    } else if r.pc.AwaitGet? {
      StaleGetReturns(c);
    } else if r.pc == Sleeping {
      SleepReturns(c);
    } else {
      assert Returns(c, 1, 0);
      ReturnsMore(c, 1, 8, 0, 2);
    }
  }

  lemma SleepReturns(c: Chan)
    requires c.run.Some? && Shape(c) && c.run.value.conflictRetries < MAX_CONFLICT_RETRIES
    requires c.run.value.pc == Sleeping
    ensures Returns(c, 8, 2)
  {
    var a := c.(run := Some(Awake(c.run.value)));
    AnyAttemptReturns(a);
    assert QuietStep(c) == Attempt(a);
  }

  lemma StaleGetReturns(c: Chan)
    requires c.run.Some? && Shape(c) && c.run.value.pc.AwaitGet? && c.run.value.pc.id in c.world.replies
    requires c.run.value.conflictRetries < MAX_CONFLICT_RETRIES
    ensures Returns(c, 8, 2)
  {
    var d := QuietStep(c);
    var obj := c.world.replies[c.run.value.pc.id].obj;
    if d.run.value.pc == AwaitSameIdb {
      assert Returns(d, 1, 0);
      ReturnsMore(d, 1, 7, 0, 2);
    } else {
      var c' := c.(cached := Some(if obj.Some? then obj.value.version else 0));
      assert d == Attempt(c');
      AnyAttemptReturns(c');
    }
  }

  // ---------- When it never returns ----------

  /** The cached version is behind, the conflict retries are spent, and no get is under way. */
  ghost predicate Stuck(c: Chan) {
    && c.vss && c.run.Some?
    && c.run.value.conflictRetries == MAX_CONFLICT_RETRIES
    && Cached(c) < Version(c.world.server)
    && (c.run.value.pc == Sleeping || c.run.value.pc.AwaitPut?)
    && (c.run.value.pc.AwaitPut? && c.run.value.pc.id in c.world.replies ==>
          c.world.replies[c.run.value.pc.id] == Conflict)
  }

  lemma StuckStays(c: Chan, e: Event)
    requires Stuck(c) && SoloInv(c) && !IsForeign(e)
    ensures Stuck(Step(c, e))
  {
  }

  lemma {:induction false} StuckForever(c: Chan, es: seq<Event>)
    requires Stuck(c) && SoloInv(c) && Solo(es)
    ensures Stuck(Steps(c, es)) && SoloInv(Steps(c, es))
  {
    if es != [] {
      StuckForever(c, es[..|es| - 1]);
      StuckStays(Steps(c, es[..|es| - 1]), es[|es| - 1]);
      SoloStep(Steps(c, es[..|es| - 1]), es[|es| - 1]);
    }
  }

  /** The quiet run of `Returns`, as a script. */
  lemma {:induction false} ReturnsScript(c: Chan, n: nat, p: int) returns (es: seq<Event>)
    requires c.run.Some? && Returns(c, n, p)
    ensures Solo(es) && AboutToAck(Steps(c, es))
    decreases n
  {
    if c.run.value.pc == Returned {
      es := [];
    } else {
      var d := QuietStep(c);
      var rest := ReturnsScript(d, n - 1, p - (d.run.value.attempts - c.run.value.attempts));
      es := [NextQuiet(c)] + rest;
      StepsJoin(c, [NextQuiet(c)], rest);
      assert Steps(c, [NextQuiet(c)]) == Step(Steps(c, []), NextQuiet(c));
    }
  }

  ghost predicate CanReturn(c: Chan) {
    exists es :: Solo(es) && AboutToAck(Steps(c, es))
  }

  /**
   * Exactly when "retry until both writes succeed" can succeed: a sleeping write of a session without
   * other writers can still return if and only if a conflict retry is left or its cached version is right.
   * The loop never asks for the version again once its five conflict retries are spent.
   */
  lemma SleepingReturnsIff(c: Chan)
    requires SoloInv(c) && c.vss && c.run.Some? && c.run.value.pc == Sleeping
    requires c.run.value.conflictRetries <= MAX_CONFLICT_RETRIES
    ensures CanReturn(c) <==>
      c.run.value.conflictRetries < MAX_CONFLICT_RETRIES || Cached(c) == Version(c.world.server)
  {
    if c.run.value.conflictRetries < MAX_CONFLICT_RETRIES {
      PromptReturns(c);
      var es := ReturnsScript(c, 8, 2);
    } else if Cached(c) == Version(c.world.server) {
      var a := c.(run := Some(Awake(c.run.value)));
      AttemptReturns(a);
      assert QuietStep(c) == Attempt(a);
      assert Returns(c, 4, 1);
      var es := ReturnsScript(c, 4, 1);
    } else {
      forall es | Solo(es)
        ensures !AboutToAck(Steps(c, es))
      {
        StuckForever(c, es);
      }
    }
  }

  lemma {:induction false} StepsShape(c: Chan, es: seq<Event>)
    requires Shape(c)
    ensures Shape(Steps(c, es))
  {
    if es != [] {
      StepsShape(c, es[..|es| - 1]);
      StepShape(Steps(c, es[..|es| - 1]), es[|es| - 1]);
    }
  }

  /** A put is on its way at an outdated version. */
  ghost predicate Behind(c: Chan, retries: nat) {
    && Shape(c) && c.vss && c.run.Some? && c.run.value.pc.AwaitPut?
    && c.run.value.pc.id in c.world.wire
    && c.run.value.conflictRetries == retries
    && Cached(c) < Version(c.world.server)
  }

  lemma LosesARetry(c: Chan, k: nat)
    requires Behind(c, k) && k < MAX_CONFLICT_RETRIES
    ensures Behind(Steps(c, [Serve(c.run.value.pc.id), Deliver, Fail]), k + 1)
  {
    var id := c.run.value.pc.id;
    var c1 := Step(c, Serve(id));
    StepShape(c, Serve(id));
    var c2 := Step(c1, Deliver);
    StepShape(c1, Deliver);
    var c3 := Step(c2, Fail);
    StepShape(c2, Fail);
    assert Steps(c, []) == c;
    StepsSnoc(c, [], Serve(id));
    StepsSnoc(c, [Serve(id)], Deliver);
    StepsSnoc(c, [Serve(id), Deliver], Fail);
    assert [] + [Serve(id)] == [Serve(id)];
    assert [Serve(id)] + [Deliver] == [Serve(id), Deliver];
    assert [Serve(id), Deliver] + [Fail] == [Serve(id), Deliver, Fail];
  }

  lemma {:induction false} LosesAllRetries(c: Chan, k: nat) returns (es: seq<Event>)
    requires Behind(c, k) && k <= MAX_CONFLICT_RETRIES
    ensures Solo(es) && Behind(Steps(c, es), MAX_CONFLICT_RETRIES)
    decreases MAX_CONFLICT_RETRIES - k
  {
    if k == MAX_CONFLICT_RETRIES {
      es := [];
    } else {
      var round := [Serve(c.run.value.pc.id), Deliver, Fail];
      LosesARetry(c, k);
      var rest := LosesAllRetries(Steps(c, round), k + 1);
      es := round + rest;
      StepsJoin(c, round, rest);
    }
  }

  lemma LostReplyFallsBehind(c: Chan)
    requires Shape(c) && c.vss && c.run.Some? && c.run.value.pc.AwaitPut? && c.run.value.conflictRetries == 0
    requires c.run.value.pc.id in c.world.wire && Cached(c) == Version(c.world.server)
    ensures Behind(Steps(c, [Serve(c.run.value.pc.id), Fail, Wake]), 0)
  {
    var id := c.run.value.pc.id;
    var c1 := Step(c, Serve(id));
    StepShape(c, Serve(id));
    var c2 := Step(c1, Fail);
    StepShape(c1, Fail);
    StepShape(c2, Wake);
    StepsSnoc(c, [], Serve(id));
    StepsSnoc(c, [Serve(id)], Fail);
    StepsSnoc(c, [Serve(id), Fail], Wake);
    assert [] + [Serve(id)] == [Serve(id)];
    assert [Serve(id)] + [Fail] == [Serve(id), Fail];
    assert [Serve(id), Fail] + [Wake] == [Serve(id), Fail, Wake];
  }

  const EmptyStore := Chan(true, World(None, None, map[], map[], 0, []), None, [], 0, [], None)

  lemma FirstPut(u: Update)
    ensures var c := Steps(EmptyStore, [Issue(u), Start]);
      && Shape(c) && c.vss && c.run.Some? && c.run.value.pc == AwaitPut(0, 0) && c.run.value.conflictRetries == 0
      && 0 in c.world.wire && Cached(c) == Version(c.world.server)
  {
    RunsShape(EmptyStore, [Issue(u), Start]);
    StepsSnoc(EmptyStore, [], Issue(u));
    StepsSnoc(EmptyStore, [Issue(u)], Start);
    assert [] + [Issue(u)] == [Issue(u)];
    assert [Issue(u)] + [Start] == [Issue(u), Start];
  }

  /** One lost reply and five failing gets suffice: an empty store, one update, no other device. */
  lemma StuckReachable(u: Update) returns (es: seq<Event>)
    ensures SoloStart(EmptyStore) && Solo(es) && Stuck(Steps(EmptyStore, es))
  {
    FirstPut(u);
    var c := Steps(EmptyStore, [Issue(u), Start]);
    LostReplyFallsBehind(c);
    var lost := Steps(c, [Serve(0), Fail, Wake]);
    var rest := LosesAllRetries(lost, 0);
    StepsJoin(EmptyStore, [Issue(u), Start], [Serve(0), Fail, Wake]);
    StepsJoin(EmptyStore, [Issue(u), Start] + [Serve(0), Fail, Wake], rest);
    es := [Issue(u), Start] + [Serve(0), Fail, Wake] + rest;
  }

  /** The bound on attempts is reached: six more of them than sleeps. */
  lemma SixMoreAttempts(u: Update) returns (es: seq<Event>)
    ensures SoloStart(EmptyStore) && Solo(es)
    ensures var s := Steps(EmptyStore, es);
      s.run.Some? && s.run.value.attempts == |s.run.value.sleeps| + 6 && Gets(EmptyStore, es) == 5
  {
    FirstPut(u);
    var c := Steps(EmptyStore, [Issue(u), Start]);
    LostReplyFallsBehind(c);
    var lost := Steps(c, [Serve(0), Fail, Wake]);
    var rest := LosesAllRetries(lost, 0);
    StepsJoin(EmptyStore, [Issue(u), Start], [Serve(0), Fail, Wake]);
    StepsJoin(EmptyStore, [Issue(u), Start] + [Serve(0), Fail, Wake], rest);
    es := [Issue(u), Start] + [Serve(0), Fail, Wake] + rest;
    RunsCounters(EmptyStore, es);
    GetsAreRetries(EmptyStore, es);
  }
}
