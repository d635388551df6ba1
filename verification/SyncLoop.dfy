/**
 * The on-chain sync loop: a timer that runs a sync, which arms the next timer. The host keeps the armed
 * timers; handlers may come at any moment between the turns of the event loop.
 */
module SyncLoop {
  import opened Common

  const SYNC_NOW_RETRIES: nat := 3
  const SYNC_NOW_RETRY_MS: nat := 3_000
  const SYNC_INTERVAL_MS: nat := 180_000

  /** The closure's variables. */
  datatype Loop = Loop(timeoutId: Option<nat>, stopped: bool, paused: bool, isSyncing: bool, retriesRemaining: nat)

  /**
   * The host: armed timers with their delays, the next timer id, how many ticks are past the guard and
   * inside a sync, and as history how many syncs were started and every delay asked for since the last syncNow.
   */
  datatype Host = Host(armed: map<nat, nat>, nextId: nat, running: nat, started: nat, delays: seq<nat>)

  datatype State = State(loop: Loop, host: Host)

  datatype Event = Fire(id: nat) | SyncDone | Stop | Pause | Resume | SyncNow

  function SetTimeout(h: Host, delay: nat): Host {
    h.(armed := h.armed[h.nextId := delay], nextId := h.nextId + 1, delays := h.delays + [delay])
  }

  function ClearTimeout(h: Host, id: nat): Host {
    h.(armed := h.armed - {id})
  }

  /** `scheduleNext` */
  function ScheduleNext(s: State): State {
    if s.loop.stopped then s
    else
      var short := s.loop.retriesRemaining > 0;
      State(s.loop.(timeoutId := Some(s.host.nextId),
                    retriesRemaining := if short then s.loop.retriesRemaining - 1 else 0),
            SetTimeout(s.host, if short then SYNC_NOW_RETRY_MS else SYNC_INTERVAL_MS))
  }

  /** `tick`, up to its first await. */
  function Tick(s: State): State {
    if s.loop.stopped || s.loop.isSyncing then s
    else if s.loop.paused then ScheduleNext(s)
    else State(s.loop.(isSyncing := true), s.host.(running := s.host.running + 1, started := s.host.started + 1))
  }

  /** A tick's sync ends, well or badly: the `finally` and the schedule after it. */
  function Finish(s: State): State {
    if s.host.running == 0 then s
    else ScheduleNext(State(s.loop.(isSyncing := false), s.host.(running := s.host.running - 1)))
  }

  function CancelPending(s: State): State {
    if s.loop.timeoutId.None? then s
    else State(s.loop.(timeoutId := None), ClearTimeout(s.host, s.loop.timeoutId.value))
  }

  function Stopped(s: State): State {
    CancelPending(s.(loop := s.loop.(stopped := true)))
  }

  function SyncedNow(s: State): State {
    if s.loop.stopped then s
    else
      Tick(CancelPending(State(s.loop.(retriesRemaining := SYNC_NOW_RETRIES), s.host.(delays := []))))
  }

  function Step(s: State, e: Event): State {
    match e
    case Fire(id) => if id in s.host.armed then Tick(s.(host := s.host.(armed := s.host.armed - {id}))) else s
    case SyncDone => Finish(s)
    case Stop => Stopped(s)
    case Pause => s.(loop := s.loop.(paused := true))
    case Resume => s.(loop := s.loop.(paused := false))
    case SyncNow => SyncedNow(s)
  }

  function Steps(s: State, es: seq<Event>): State {
    if es == [] then s else Step(Steps(s, es[..|es| - 1]), es[|es| - 1])
  }

  /** `startOnchainSyncLoop` */
  const Started: State :=
    State(Loop(Some(0), false, false, false, 0), Host(map[0 := SYNC_INTERVAL_MS], 1, 0, 0, []))

  // ---------- Alive and single ----------

  /** Exactly one of: one timer armed (and remembered), one sync running. */
  ghost predicate Inv(s: State) {
    && (forall id :: id in s.host.armed ==> id < s.host.nextId)
    && s.host.running == (if s.loop.isSyncing then 1 else 0)
    && if s.loop.stopped then s.host.armed == map[]
       else if s.loop.isSyncing then s.host.armed == map[]
       else s.loop.timeoutId.Some? && s.host.armed.Keys == {s.loop.timeoutId.value}
  }

  lemma StepKeeps(s: State, e: Event)
    requires Inv(s)
    ensures Inv(Step(s, e))
    ensures s.loop.stopped ==> Step(s, e).loop.stopped && Step(s, e).host.started == s.host.started
  {
    match e
    case Fire(id) => if id in s.host.armed { assert s.host.armed - {id} == map[]; }
    case Stop => if s.loop.timeoutId.Some? { assert s.host.armed - {s.loop.timeoutId.value} == map[]; }
    case SyncNow =>
      if !s.loop.stopped && s.loop.timeoutId.Some? { assert s.host.armed - {s.loop.timeoutId.value} == map[]; }
    case _ =>
  }

  lemma {:induction false} RunsKeep(es: seq<Event>)
    ensures Inv(Steps(Started, es))
  {
    if es != [] {
      RunsKeep(es[..|es| - 1]);
      StepKeeps(Steps(Started, es[..|es| - 1]), es[|es| - 1]);
    }
  }

  /**
   * In whatever order timers fire, syncs end, and pause, resume and syncNow are called: before `stop` there
   * is exactly one armed timer or one running sync, never both and never neither; after it no timer is armed.
   */
  lemma NeverDiesNeverDoubles(es: seq<Event>)
    ensures var s := Steps(Started, es);
      if s.loop.stopped then |s.host.armed| == 0 && s.host.running <= 1
      else |s.host.armed| + s.host.running == 1
  {
    RunsKeep(es);
    var s := Steps(Started, es);
    if !s.loop.stopped && !s.loop.isSyncing {
      assert |s.host.armed| == |s.host.armed.Keys| == |{s.loop.timeoutId.value}|;
    }
  }

  /** After `stop` no new sync starts. */
  lemma {:induction false} StopIsFinal(es: seq<Event>, fs: seq<Event>)
    requires Steps(Started, es).loop.stopped
    ensures var s, t := Steps(Started, es), Steps(Started, es + fs);
      t.loop.stopped && t.host.started == s.host.started && t.host.armed == map[]
    decreases |fs|
  {
    RunsKeep(es + fs);
    if fs == [] {
      assert es + fs == es;
    } else {
      var all := es + fs;
      assert all[..|all| - 1] == es + fs[..|fs| - 1];
      StopIsFinal(es, fs[..|fs| - 1]);
      RunsKeep(es + fs[..|fs| - 1]);
      StepKeeps(Steps(Started, es + fs[..|fs| - 1]), all[|all| - 1]);
    }
  }

  // ---------- When a sync starts, read off the script ----------

  /** `stop` was called. */
  predicate StopCalled(es: seq<Event>) {
    exists i :: 0 <= i < |es| && es[i] == Stop
  }

  /** The last of pause and resume was pause. */
  predicate PauseCalled(es: seq<Event>) {
    es != [] && (es[|es| - 1] == Pause || (es[|es| - 1] != Resume && PauseCalled(es[..|es| - 1])))
  }

  lemma {:induction false} FlagsAreCalls(es: seq<Event>)
    ensures Steps(Started, es).loop.stopped <==> StopCalled(es)
    ensures Steps(Started, es).loop.paused <==> PauseCalled(es)
  {
    if es != [] {
      var front, e := es[..|es| - 1], es[|es| - 1];
      FlagsAreCalls(front);
      assert es == front + [e];
      assert StopCalled(es) <==> StopCalled(front) || e == Stop by {
        if StopCalled(front) {
          var i :| 0 <= i < |front| && front[i] == Stop;
          assert es[i] == Stop;
        }
        if e == Stop { assert es[|front|] == Stop; }
      }
    }
  }

  /** The armed timer fires, or syncNow is called: a tick is due. */
  predicate TickDue(s: State, e: Event) {
    (e.Fire? && e.id in s.host.armed) || e == SyncNow
  }

  /**
   * After any script, one more event starts a sync, and exactly one, when a tick is due and the loop is
   * neither stopped nor paused nor in a sync, and in no other case. A due tick of a paused loop arms the
   * next timer instead, with a sync's end the only other thing that does.
   */
  lemma SyncStartsIff(es: seq<Event>, e: Event)
    ensures var s, t := Steps(Started, es), Steps(Started, es + [e]);
      var free := !StopCalled(es) && s.host.running == 0;
      && t.host.started - s.host.started == (if TickDue(s, e) && free && !PauseCalled(es) then 1 else 0)
      && t.host.nextId - s.host.nextId ==
           (if (TickDue(s, e) && free && PauseCalled(es)) || (e == SyncDone && s.host.running > 0 && !StopCalled(es)) then 1 else 0)
      && t.host.running == s.host.running + (t.host.started - s.host.started) - (if e == SyncDone && s.host.running > 0 then 1 else 0)
  {
    assert (es + [e])[..|es + [e]| - 1] == es;
    RunsKeep(es);
    FlagsAreCalls(es);
  }

  /** While paused no sync starts, however often timers fire and syncNow is called. */
  lemma {:induction false} NoneWhilePaused(es: seq<Event>, fs: seq<Event>)
    requires forall i :: 0 <= i < |fs| ==> fs[i] != Resume
    ensures Steps(Started, es + [Pause] + fs).host.started == Steps(Started, es).host.started
    ensures PauseCalled(es + [Pause] + fs)
    decreases |fs|
  {
    var all := es + [Pause] + fs;
    if fs == [] {
      assert all == es + [Pause];
      SyncStartsIff(es, Pause);
    } else {
      var front, e := es + [Pause] + fs[..|fs| - 1], fs[|fs| - 1];
      assert all == front + [e];
      NoneWhilePaused(es, fs[..|fs| - 1]);
      SyncStartsIff(front, e);
    }
  }

  // ---------- The short delays after syncNow ----------

  /** The n-th delay after a syncNow, counted from 0: three times three seconds, then three minutes. */
  function DelayAfterSyncNow(n: nat): nat {
    if n < 3 then 3_000 else 180_000
  }

  ghost predicate ShortThree(s: State) {
    && (forall n :: 0 <= n < |s.host.delays| ==> s.host.delays[n] == DelayAfterSyncNow(n))
    && s.loop.retriesRemaining == (if |s.host.delays| >= SYNC_NOW_RETRIES then 0 else SYNC_NOW_RETRIES - |s.host.delays|)
  }

  lemma ShortStep(s: State, e: Event)
    requires Inv(s) && (ShortThree(s) || (e == SyncNow && !s.loop.stopped))
    ensures ShortThree(Step(s, e))
  {
  }

  /** Since the last syncNow exactly the first three schedules were short and all later ones long. */
  lemma {:induction false} ThreeShortDelays(es: seq<Event>, fs: seq<Event>)
    requires !Steps(Started, es).loop.stopped
    ensures ShortThree(Steps(Started, es + [SyncNow] + fs))
    decreases |fs|
  {
    var all := es + [SyncNow] + fs;
    RunsKeep(es);
    if fs == [] {
      assert all == es + [SyncNow] && (es + [SyncNow])[..|es|] == es;
      ShortStep(Steps(Started, es), SyncNow);
    } else {
      assert all[..|all| - 1] == es + [SyncNow] + fs[..|fs| - 1];
      ThreeShortDelays(es, fs[..|fs| - 1]);
      RunsKeep(es + [SyncNow] + fs[..|fs| - 1]);
      ShortStep(Steps(Started, es + [SyncNow] + fs[..|fs| - 1]), all[|all| - 1]);
    }
  }

  /** Until syncNow is called every schedule is a long one. */
  lemma {:induction false} LongUntilThen(es: seq<Event>)
    requires forall i :: 0 <= i < |es| ==> es[i] != SyncNow
    ensures var s := Steps(Started, es);
      s.loop.retriesRemaining == 0 && forall n :: 0 <= n < |s.host.delays| ==> s.host.delays[n] == 180_000
  {
    if es != [] { LongUntilThen(es[..|es| - 1]); }
  }

  // ---------- The handle ----------

  class Timers {
    var armed: map<nat, nat>
    var nextId: nat
    var running: nat
    var started: nat
    ghost var delays: seq<nat>

    ghost function View(): Host
      reads this
    {
      Host(armed, nextId, running, started, delays)
    }

    constructor ()
      ensures View() == Host(map[], 0, 0, 0, [])
    {
      armed, nextId, running, started, delays := map[], 0, 0, 0, [];
    }

    method SetTimer(delay: nat) returns (id: nat)
      modifies this
      ensures View() == SetTimeout(old(View()), delay) && id == old(nextId)
    {
      id := nextId;
      armed, nextId, delays := armed[id := delay], nextId + 1, delays + [delay];
    }

    method ClearTimer(id: nat)
      modifies this
      ensures View() == ClearTimeout(old(View()), id)
    {
      armed := armed - {id};
    }
  }

  /** What `startOnchainSyncLoop` returns, with the closure's variables. */
  class SyncHandle {
    const timers: Timers
    var timeoutId: Option<nat>
    var stopped: bool
    var paused: bool
    var isSyncing: bool
    var retriesRemaining: nat

    ghost function View(): State
      reads this, timers
    {
      State(Loop(timeoutId, stopped, paused, isSyncing, retriesRemaining), timers.View())
    }

    constructor ()
      ensures fresh(timers) && View().loop == Started.loop
      ensures View().host.(delays := []) == Started.host
    {
      timers := new Timers();
      timeoutId, stopped, paused, isSyncing, retriesRemaining := None, false, false, false, 0;
      new;
      var id := timers.SetTimer(SYNC_INTERVAL_MS);
      timeoutId := Some(id);
      assert timers.armed == map[0 := SYNC_INTERVAL_MS];
    }

    method Schedule()
      modifies this, timers
      ensures View() == ScheduleNext(old(View()))
    {
      if stopped {
        return;
      }
      var delay := SYNC_INTERVAL_MS;
      if retriesRemaining > 0 {
        retriesRemaining := retriesRemaining - 1;
        delay := SYNC_NOW_RETRY_MS;
      }
      var id := timers.SetTimer(delay);
      timeoutId := Some(id);
    }

    /** Runs up to the await of the sync; the host later calls `SyncEnded`. */
    method TickNow()
      modifies this, timers
      ensures View() == Tick(old(View()))
    {
      if stopped || isSyncing {
        return;
      }
      if paused {
        Schedule();
        return;
      }
      isSyncing := true;
      timers.running, timers.started := timers.running + 1, timers.started + 1;
    }

    method SyncEnded()
      requires timers.running > 0
      modifies this, timers
      ensures View() == Finish(old(View()))
    {
      timers.running := timers.running - 1;
      isSyncing := false;
      Schedule();
    }

    method TimerFires(id: nat)
      requires id in timers.armed
      modifies this, timers
      ensures View() == Step(old(View()), Fire(id))
    {
      timers.armed := timers.armed - {id};
      TickNow();
    }

    method CancelTimer()
      modifies this, timers
      ensures View() == CancelPending(old(View()))
    {
      if timeoutId.Some? {
        timers.ClearTimer(timeoutId.value);
        timeoutId := None;
      }
    }

    method StopLoop()
      modifies this, timers
      ensures View() == Step(old(View()), Stop)
    {
      stopped := true;
      CancelTimer();
    }

    method PauseLoop()
      modifies this
      ensures View() == Step(old(View()), Pause)
    {
      paused := true;
    }

    method ResumeLoop()
      modifies this
      ensures View() == Step(old(View()), Resume)
    {
      paused := false;
    }

    method SyncNowPlease()
      modifies this, timers
      ensures View() == Step(old(View()), SyncNow)
    {
      if stopped {
        return;
      }
      retriesRemaining := SYNC_NOW_RETRIES;
      timers.delays := [];
      CancelTimer();
      TickNow();
    }
  }
}
