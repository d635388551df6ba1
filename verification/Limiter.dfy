/**
 * The request limiter: a FIFO semaphore of two permits and a table of in-flight fetches by URL. One
 * event per turn of the event loop: a caller arrives, a granted fetch begins or its signal cannot be
 * built, a fetch settles, a settled promise is removed from the table.
 */
module Limiter {
  import opened Common
  import opened OrderedSet

  const MAX_CONCURRENT: nat := 2

  // ---------- The semaphore ----------

  /** Free permits and the waiting requests, oldest first. */
  datatype Sem = Sem(count: nat, queue: seq<nat>)

  function Acquire(s: Sem, who: nat): Sem {
    if s.count > 0 then s.(count := s.count - 1) else s.(queue := s.queue + [who])
  }

  function Release(s: Sem): Sem {
    if s.queue != [] then s.(queue := s.queue[1..]) else s.(count := s.count + 1)
  }

  class Semaphore {
    var count: nat
    var queue: seq<nat>

    ghost function View(): Sem
      reads this
    {
      Sem(count, queue)
    }

    constructor (max: nat)
      ensures View() == Sem(max, [])
    {
      count, queue := max, [];
    }

    /** Resolved at once, or queued. */
    method AcquireFor(who: nat) returns (now: bool)
      modifies this
      ensures View() == Acquire(old(View()), who) && now == (old(count) > 0)
    {
      if count > 0 {
        count := count - 1;
        return true;
      }
      queue := queue + [who];
      return false;
    }

    /** Hands the permit to the longest waiter, or puts it back. */
    method ReleaseOne() returns (next: Option<nat>)
      modifies this
      ensures View() == Release(old(View()))
      ensures next == if old(queue) == [] then None else Some(old(queue)[0])
    {
      if queue != [] {
        next := Some(queue[0]);
        queue := queue[1..];
      } else {
        next := None;
        count := count + 1;
      }
    }
  }

  // ---------- The limiter ----------

  datatype Outcome = Body(status: int, text: string) | Error

  datatype Status = Queued | Granted | Fetching | Settled(outcome: Outcome)

  /** One promise of `dedupFetch`; `removed` once its cleanup has run. */
  datatype Fetch = Fetch(url: string, status: Status, removed: bool)

  /**
   * `holders` are the requests holding a permit and `leaked` counts permits that no request will ever
   * give back; `calls` lists which promise each caller got, `waited` and `served` who queued and who
   * was let through from the queue. These are history.
   */
  datatype State = State(
    sem: Sem,
    fetches: seq<Fetch>,
    inflight: map<string, nat>,
    holders: set<nat>,
    leaked: nat,
    calls: seq<nat>,
    waited: seq<nat>,
    served: seq<nat>)

  datatype Event =
    | Call(url: string)
    | Begin(p: nat)
    | SignalThrows(p: nat)
    | Settle(p: nat, outcome: Outcome)
    | Cleanup(p: nat)

  const Fresh := State(Sem(MAX_CONCURRENT, []), [], map[], {}, 0, [], [], [])

  function SetStatus(s: State, p: nat, status: Status): State
    requires p < |s.fetches|
  {
    s.(fetches := s.fetches[p := s.fetches[p].(status := status)])
  }

  /** `dedupFetch` */
  function OnCall(s: State, url: string): State {
    if url in s.inflight then s.(calls := s.calls + [s.inflight[url]])
    else
      var p := |s.fetches|;
      var now := s.sem.count > 0;
      State(Acquire(s.sem, p),
            s.fetches + [Fetch(url, if now then Granted else Queued, false)],
            s.inflight[url := p],
            if now then s.holders + {p} else s.holders,
            s.leaked,
            s.calls + [p],
            if now then s.waited else s.waited + [p],
            s.served)
  }

  /** The `finally`: the fetch is over and its permit goes on. */
  function OnSettle(s: State, p: nat, outcome: Outcome): State {
    if p >= |s.fetches| || s.fetches[p].status != Fetching then s
    else
      var s' := SetStatus(s, p, Settled(outcome)).(sem := Release(s.sem), holders := s.holders - {p});
      if s.sem.queue == [] || s.sem.queue[0] >= |s.fetches| then s'
      else
        var next := s.sem.queue[0];
        SetStatus(s', next, Granted).(holders := s'.holders + {next}, served := s.served + [next])
  }

  function OnBegin(s: State, p: nat): State {
    if p < |s.fetches| && s.fetches[p].status == Granted then SetStatus(s, p, Fetching) else s
  }

  /** `getSignal()` runs before the `try`: if it throws, the permit is not released. */
  function OnSignalThrows(s: State, p: nat): State {
    if p < |s.fetches| && s.fetches[p].status == Granted then
      SetStatus(s, p, Settled(Error)).(holders := s.holders - {p}, leaked := s.leaked + 1)
    else s
  }

  /** `inflight.delete(url)`, whatever is registered under the URL by then. */
  function OnCleanup(s: State, p: nat): State {
    if p < |s.fetches| && s.fetches[p].status.Settled? && !s.fetches[p].removed then
      s.(inflight := s.inflight - {s.fetches[p].url}, fetches := s.fetches[p := s.fetches[p].(removed := true)])
    else s
  }

  function Step(s: State, e: Event): State {
    match e
    case Call(url) => OnCall(s, url)
    case Begin(p) => OnBegin(s, p)
    case SignalThrows(p) => OnSignalThrows(s, p)
    case Settle(p, outcome) => OnSettle(s, p, outcome)
    case Cleanup(p) => OnCleanup(s, p)
  }

  function Steps(s: State, es: seq<Event>): State {
    if es == [] then s else Step(Steps(s, es[..|es| - 1]), es[|es| - 1])
  }

  // ---------- What every step keeps ----------

  ghost predicate HoldsPermit(s: State, p: nat) {
    p < |s.fetches| && (s.fetches[p].status == Granted || s.fetches[p].status == Fetching)
  }

  ghost predicate Waits(s: State, p: nat) {
    p < |s.fetches| && s.fetches[p].status == Queued
  }

  ghost predicate Counts(s: State) {
    && s.sem.count + |s.holders| + s.leaked == MAX_CONCURRENT
    && (s.sem.queue != [] ==> s.sem.count == 0)
    && s.waited == s.served + s.sem.queue
  }

  ghost predicate Who(s: State) {
    && (forall p: nat :: p in s.holders <==> HoldsPermit(s, p))
    && (forall p: nat :: p in s.sem.queue <==> Waits(s, p))
    && Distinct(s.sem.queue)
  }

  ghost predicate Table(s: State) {
    && (forall p: nat :: p < |s.fetches| && !s.fetches[p].removed ==> Registered(s, p))
    && (forall url :: url in s.inflight ==>
          s.inflight[url] < |s.fetches| && s.fetches[s.inflight[url]].url == url && !s.fetches[s.inflight[url]].removed)
    && (forall p: nat :: p < |s.fetches| && s.fetches[p].removed ==> s.fetches[p].status.Settled?)
  }

  ghost predicate Registered(s: State, p: nat)
    requires p < |s.fetches|
  {
    s.fetches[p].url in s.inflight && s.inflight[s.fetches[p].url] == p
  }

  ghost predicate Inv(s: State) {
    Counts(s) && Who(s) && Table(s)
  }

  lemma CallWho(s: State, url: string)
    requires Who(s) && url !in s.inflight
    ensures Who(OnCall(s, url))
  {
    var t, p := OnCall(s, url), |s.fetches|;
    assert !Waits(s, p) && !HoldsPermit(s, p);
    forall q: nat ensures HoldsPermit(t, q) <==> HoldsPermit(s, q) || (q == p && s.sem.count > 0) {}
    forall q: nat ensures Waits(t, q) <==> Waits(s, q) || (q == p && s.sem.count == 0) {}
    forall q: nat ensures q in t.sem.queue <==> q in s.sem.queue || (q == p && s.sem.count == 0) {}
  }

  lemma CallTable(s: State, url: string)
    requires Table(s) && url !in s.inflight
    ensures Table(OnCall(s, url))
  {
    var t, p := OnCall(s, url), |s.fetches|;
    forall q: nat | q < |t.fetches| && !t.fetches[q].removed ensures Registered(t, q) {
      if q < p { assert Registered(s, q); }
    }
  }

  lemma CallKeeps(s: State, url: string)
    requires Inv(s)
    ensures Inv(OnCall(s, url))
  {
    if url !in s.inflight {
      CallWho(s, url);
      CallTable(s, url);
      assert !HoldsPermit(s, |s.fetches|);
      Associates(s.served, s.sem.queue, [|s.fetches|]);
    }
  }

  /** Changing one status leaves the table alone, unless it un-settles something. */
  lemma StatusTable(s: State, p: nat, status: Status)
    requires Table(s) && p < |s.fetches| && (s.fetches[p].removed ==> status.Settled?)
    ensures Table(SetStatus(s, p, status))
  {
    var t := SetStatus(s, p, status);
    forall q: nat | q < |t.fetches| && !t.fetches[q].removed ensures Registered(t, q) {
      assert Registered(s, q);
    }
  }

  /** A permit holder gives way to the first in the queue, or to nobody. */
  lemma SettleWho(s: State, p: nat, outcome: Outcome)
    requires Who(s) && HoldsPermit(s, p) && s.fetches[p].status == Fetching
    ensures Who(OnSettle(s, p, outcome))
  {
    var t := OnSettle(s, p, outcome);
    if s.sem.queue == [] {
      forall q: nat ensures HoldsPermit(t, q) <==> HoldsPermit(s, q) && q != p {}
      forall q: nat ensures Waits(t, q) <==> Waits(s, q) {}
    } else {
      var next := s.sem.queue[0];
      assert next in s.sem.queue;
      assert Waits(s, next);
      forall q: nat ensures HoldsPermit(t, q) <==> (HoldsPermit(s, q) && q != p) || q == next {}
      forall q: nat ensures Waits(t, q) <==> Waits(s, q) && q != next {}
      forall q: nat ensures q in s.sem.queue[1..] <==> q in s.sem.queue && q != next {}
    }
  }

  lemma SettleTable(s: State, p: nat, outcome: Outcome)
    requires Table(s) && Who(s)
    ensures Table(OnSettle(s, p, outcome))
  {
    if p < |s.fetches| && s.fetches[p].status == Fetching {
      StatusTable(s, p, Settled(outcome));
      var s' := SetStatus(s, p, Settled(outcome));
      if s.sem.queue != [] {
        assert s.sem.queue[0] in s.sem.queue;
        assert Waits(s, s.sem.queue[0]);
        StatusTable(s', s.sem.queue[0], Granted);
      }
    }
  }

  lemma SettleCounts(s: State, p: nat, outcome: Outcome)
    requires Counts(s) && Who(s)
    ensures Counts(OnSettle(s, p, outcome))
  {
    if p < |s.fetches| && s.fetches[p].status == Fetching {
      assert HoldsPermit(s, p);
      if s.sem.queue != [] {
        var next := s.sem.queue[0];
        assert next in s.sem.queue;
        assert Waits(s, next) && !HoldsPermit(s, next);
        assert s.sem.queue == [next] + s.sem.queue[1..];
        Associates(s.served, [next], s.sem.queue[1..]);
      }
    }
  }

  lemma BeginKeeps(s: State, p: nat)
    requires Inv(s)
    ensures Inv(OnBegin(s, p)) && Inv(OnSignalThrows(s, p))
  {
    if p < |s.fetches| && s.fetches[p].status == Granted {
      assert HoldsPermit(s, p);
      StatusTable(s, p, Fetching);
      StatusTable(s, p, Settled(Error));
      var t, u := OnBegin(s, p), OnSignalThrows(s, p);
      forall q: nat ensures HoldsPermit(t, q) <==> HoldsPermit(s, q) {}
      forall q: nat ensures Waits(t, q) <==> Waits(s, q) {}
      forall q: nat ensures HoldsPermit(u, q) <==> HoldsPermit(s, q) && q != p {}
      forall q: nat ensures Waits(u, q) <==> Waits(s, q) {}
    }
  }

  lemma CleanupKeeps(s: State, p: nat)
    requires Inv(s)
    ensures Inv(OnCleanup(s, p))
  {
    if p < |s.fetches| && s.fetches[p].status.Settled? && !s.fetches[p].removed {
      var t := OnCleanup(s, p);
      assert Registered(s, p);
      forall q: nat ensures HoldsPermit(t, q) <==> HoldsPermit(s, q) {}
      forall q: nat ensures Waits(t, q) <==> Waits(s, q) {}
      forall q: nat | q < |t.fetches| && !t.fetches[q].removed ensures Registered(t, q) {
        assert Registered(s, q);
      }
    }
  }

  lemma StepKeeps(s: State, e: Event)
    requires Inv(s)
    ensures Inv(Step(s, e))
  {
    match e
    case Call(url) => CallKeeps(s, url);
    case Begin(p) => BeginKeeps(s, p);
    case SignalThrows(p) => BeginKeeps(s, p);
    case Settle(p, outcome) =>
      SettleTable(s, p, outcome);
      SettleCounts(s, p, outcome);
      if p < |s.fetches| && s.fetches[p].status == Fetching { SettleWho(s, p, outcome); }
    case Cleanup(p) => CleanupKeeps(s, p);
  }

  lemma {:induction false} RunsKeep(es: seq<Event>)
    ensures Inv(Steps(Fresh, es))
  {
    InvFrom(Fresh, es);
  }

  ghost predicate SameUrlUnsettled(s: State, p: nat, q: nat) {
    && p < |s.fetches| && q < |s.fetches| && s.fetches[p].url == s.fetches[q].url
    && !s.fetches[p].status.Settled? && !s.fetches[q].status.Settled?
  }

  /** The requests that hold a permit: let through and not settled. */
  function Holding(s: State): set<nat> {
    set p: nat | p < |s.fetches| && (s.fetches[p].status == Granted || s.fetches[p].status == Fetching)
  }

  lemma HoldersHold(s: State)
    requires Inv(s)
    ensures s.holders == Holding(s)
  {
  }

  /**
   * Over every interleaving: permits free, held and leaked are always two, requests wait only when none
   * is free, the queue is served first-in first-out, and a URL has at most one unsettled fetch.
   */
  lemma LimiterSafe(es: seq<Event>)
    ensures var s := Steps(Fresh, es);
      && s.sem.count + |Holding(s)| + s.leaked == 2
      && (s.sem.queue != [] ==> s.sem.count == 0)
      && s.served <= s.waited && s.waited == s.served + s.sem.queue
      && (forall p: nat, q: nat :: SameUrlUnsettled(s, p, q) ==> p == q)
  {
    RunsKeep(es);
    var s := Steps(Fresh, es);
    HoldersHold(s);
    forall p: nat, q: nat | SameUrlUnsettled(s, p, q) ensures p == q {
      assert Registered(s, p) && Registered(s, q);
    }
  }

  // ---------- Shared outcomes ----------

  lemma SettledStays(s: State, e: Event, p: nat)
    requires Inv(s) && p < |s.fetches|
    ensures p < |Step(s, e).fetches| && Step(s, e).fetches[p].url == s.fetches[p].url
    ensures s.fetches[p].status.Settled? ==> Step(s, e).fetches[p].status == s.fetches[p].status
    ensures s.calls <= Step(s, e).calls
  {
    if e.Settle? && s.sem.queue != [] {
      assert s.sem.queue[0] in s.sem.queue;
      assert Waits(s, s.sem.queue[0]);
    }
  }

  lemma {:induction false} InvFrom(s: State, fs: seq<Event>)
    requires Inv(s)
    ensures Inv(Steps(s, fs))
  {
    if fs != [] {
      InvFrom(s, fs[..|fs| - 1]);
      StepKeeps(Steps(s, fs[..|fs| - 1]), fs[|fs| - 1]);
    }
  }

  /** A promise settles once, so all its callers get one outcome, whatever happens later. */
  lemma {:induction false} OutcomeForever(s: State, fs: seq<Event>, p: nat)
    requires Inv(s) && p < |s.fetches| && s.fetches[p].status.Settled?
    ensures var t := Steps(s, fs); p < |t.fetches| && t.fetches[p].status == s.fetches[p].status
  {
    if fs != [] {
      OutcomeForever(s, fs[..|fs| - 1], p);
      InvFrom(s, fs[..|fs| - 1]);
      SettledStays(Steps(s, fs[..|fs| - 1]), fs[|fs| - 1], p);
    }
  }

  /** A caller who asks for a URL while a fetch of it is unsettled gets that fetch's promise, and takes no permit. */
  lemma JoinsUnsettled(es: seq<Event>, p: nat)
    requires p < |Steps(Fresh, es).fetches| && !Steps(Fresh, es).fetches[p].status.Settled?
    ensures var s := Steps(Fresh, es);
      Step(s, Call(s.fetches[p].url)) == s.(calls := s.calls + [p])
  {
    RunsKeep(es);
    assert Registered(Steps(Fresh, es), p);
  }

  // ---------- What a caller gets, read off the script ----------

  /** The fetch of p has begun: its turn came after it was let through. */
  ghost predicate BegunBy(es: seq<Event>, p: nat) {
    es != []
    && (BegunBy(es[..|es| - 1], p) || (es[|es| - 1] == Begin(p) && LetThrough(Steps(Fresh, es[..|es| - 1]), p)))
  }

  ghost predicate LetThrough(s: State, p: nat) {
    p < |s.fetches| && s.fetches[p].status == Granted
  }

  /** How p ended: by the first settling of its own begun fetch, or by its signal's failure. */
  ghost function OutcomeBy(es: seq<Event>, p: nat): Option<Outcome> {
    if es == [] then None
    else
      var front, e := es[..|es| - 1], es[|es| - 1];
      if OutcomeBy(front, p).Some? then OutcomeBy(front, p)
      else if e.Settle? && e.p == p && BegunBy(front, p) then Some(e.outcome)
      else if e == SignalThrows(p) && LetThrough(Steps(Fresh, front), p) then Some(Error)
      else None
  }

  /** The promise p was taken off the table after it had ended. */
  ghost predicate RemovedBy(es: seq<Event>, p: nat) {
    es != []
    && (RemovedBy(es[..|es| - 1], p) || (es[|es| - 1] == Cleanup(p) && OutcomeBy(es[..|es| - 1], p).Some?))
  }

  /** Promise p is as the script says. */
  ghost predicate AsScripted(es: seq<Event>, p: nat) {
    var s := Steps(Fresh, es);
    if p < |s.fetches| then
      && (forall o :: s.fetches[p].status == Settled(o) <==> OutcomeBy(es, p) == Some(o))
      && (s.fetches[p].status == Fetching <==> BegunBy(es, p) && OutcomeBy(es, p) == None)
      && (s.fetches[p].removed <==> RemovedBy(es, p))
    else !BegunBy(es, p) && OutcomeBy(es, p) == None && !RemovedBy(es, p)
  }

  lemma ScriptedStep(front: seq<Event>, e: Event, p: nat)
    requires AsScripted(front, p)
    ensures AsScripted(front + [e], p)
  {
    var s, es := Steps(Fresh, front), front + [e];
    assert es[..|es| - 1] == front;
    RunsKeep(front);
    if e.Settle? && e.p < |s.fetches| && s.fetches[e.p].status == Fetching && s.sem.queue != [] {
      assert s.sem.queue[0] in s.sem.queue;
      assert Waits(s, s.sem.queue[0]);
    }
  }

  lemma {:induction false} ReadOffScript(es: seq<Event>, p: nat)
    ensures AsScripted(es, p)
  {
    if es != [] {
      ReadOffScript(es[..|es| - 1], p);
      ScriptedStep(es[..|es| - 1], es[|es| - 1], p);
      assert es == es[..|es| - 1] + [es[|es| - 1]];
    }
  }

  /** The URLs asked for, one per caller. */
  function Asked(es: seq<Event>): seq<string> {
    if es == [] then []
    else Asked(es[..|es| - 1]) + if es[|es| - 1].Call? then [es[|es| - 1].url] else []
  }

  /** What caller i's promise has told it so far. */
  function Told(s: State, i: nat): Option<Outcome>
    requires i < |s.calls|
  {
    if s.calls[i] < |s.fetches| && s.fetches[s.calls[i]].status.Settled? then
      Some(s.fetches[s.calls[i]].status.outcome)
    else None
  }

  /** Caller by caller, the promise given is one of a fetch of the URL asked for. */
  ghost predicate Matched(s: State, urls: seq<string>) {
    && |s.calls| == |urls|
    && forall i :: 0 <= i < |s.calls| ==> s.calls[i] < |s.fetches| && s.fetches[s.calls[i]].url == urls[i]
  }

  lemma MatchedCall(s: State, url: string, urls: seq<string>)
    requires Inv(s) && Matched(s, urls)
    ensures Matched(OnCall(s, url), urls + [url])
  {
  }

  lemma MatchedRest(s: State, e: Event, urls: seq<string>)
    requires Inv(s) && Matched(s, urls) && !e.Call?
    ensures Matched(Step(s, e), urls)
  {
    assert Step(s, e).calls == s.calls;
    forall p: nat | p < |s.fetches| ensures p < |Step(s, e).fetches| && Step(s, e).fetches[p].url == s.fetches[p].url {
      SettledStays(s, e, p);
    }
  }

  lemma {:induction false} CallsAreAsked(es: seq<Event>)
    ensures Matched(Steps(Fresh, es), Asked(es))
  {
    if es != [] {
      var front, e := es[..|es| - 1], es[|es| - 1];
      CallsAreAsked(front);
      RunsKeep(front);
      if e.Call? { MatchedCall(Steps(Fresh, front), e.url, Asked(front)); }
      else {
        MatchedRest(Steps(Fresh, front), e, Asked(front));
        assert Asked(front) + [] == Asked(front);
      }
    }
  }

  /**
   * Every caller gets the promise of a fetch of the URL it asked for, and from it exactly the outcome with
   * which that fetch ended in the script.
   */
  lemma CallersGetTheFetchs(es: seq<Event>, i: nat)
    requires i < |Asked(es)|
    ensures var s := Steps(Fresh, es);
      && i < |s.calls| && s.calls[i] < |s.fetches|
      && s.fetches[s.calls[i]].url == Asked(es)[i]
      && Told(s, i) == OutcomeBy(es, s.calls[i])
  {
    CallsAreAsked(es);
    ReadOffScript(es, Steps(Fresh, es).calls[i]);
  }

  /**
   * A caller joins the one fetch of its URL that has not been taken off the table, or starts a new one,
   * which is let through at once exactly when a permit is free.
   */
  lemma CallJoinsOrStarts(es: seq<Event>, url: string)
    ensures var s := Steps(Fresh, es);
      var t := Step(s, Call(url));
      if exists p: nat :: p < |s.fetches| && s.fetches[p].url == url && !RemovedBy(es, p) then
        t.fetches == s.fetches && t.sem == s.sem
      else
        && t.fetches == s.fetches + [Fetch(url, if s.sem.count > 0 then Granted else Queued, false)]
        && t.calls == s.calls + [|s.fetches|]
  {
    var s := Steps(Fresh, es);
    RunsKeep(es);
    forall p: nat | p < |s.fetches| ensures s.fetches[p].removed <==> RemovedBy(es, p) { ReadOffScript(es, p); }
    if url in s.inflight { assert !RemovedBy(es, s.inflight[url]); }
    forall p: nat | p < |s.fetches| && s.fetches[p].url == url && !RemovedBy(es, p) ensures url in s.inflight {
      assert Registered(s, p);
    }
  }

  // ---------- Exactly when a permit is lost ----------

  ghost predicate ThrowsHere(s: State, e: Event) {
    e.SignalThrows? && e.p < |s.fetches| && s.fetches[e.p].status == Granted
  }

  /** At some moment building the signal of a granted request threw. */
  ghost predicate SignalFailed(s: State, es: seq<Event>) {
    es != [] && (SignalFailed(s, es[..|es| - 1]) || ThrowsHere(Steps(s, es[..|es| - 1]), es[|es| - 1]))
  }

  lemma LeakStep(s: State, e: Event)
    ensures Step(s, e).leaked == s.leaked + if ThrowsHere(s, e) then 1 else 0
  {
  }

  lemma {:induction false} LeakedThrows(es: seq<Event>)
    ensures Steps(Fresh, es).leaked > 0 <==> SignalFailed(Fresh, es)
  {
    if es != [] {
      LeakedThrows(es[..|es| - 1]);
      LeakStep(Steps(Fresh, es[..|es| - 1]), es[|es| - 1]);
    }
  }

  /**
   * A permit is missing, neither free nor held by a request, exactly when building a signal once threw:
   * the `finally` covers every failure of the fetch itself.
   */
  lemma LeakedIff(es: seq<Event>)
    ensures var s := Steps(Fresh, es);
      s.sem.count + |Holding(s)| < 2 <==> SignalFailed(Fresh, es)
  {
    LimiterSafe(es);
    LeakedThrows(es);
  }

  /** No permit is free and no request holds one. */
  predicate Dead(s: State) {
    s.sem.count == 0 && Holding(s) == {}
  }

  lemma DeadStays(s: State, e: Event)
    requires Inv(s) && Dead(s)
    ensures Dead(Step(s, e)) && Step(s, e).served == s.served
  {
    forall p: nat ensures !HoldsPermit(s, p) { assert p !in Holding(s); }
    if e.SignalThrows? { assert !HoldsPermit(s, e.p); }
    if e.Settle? { assert !HoldsPermit(s, e.p); }
    var t := Step(s, e);
    forall p: nat | p < |t.fetches| ensures t.fetches[p].status != Granted && t.fetches[p].status != Fetching {
      if p < |s.fetches| { assert !HoldsPermit(s, p); }
    }
  }

  /** Once both permits are lost the limiter is dead: nothing is ever let through again. */
  lemma {:induction false} DeadForever(s: State, fs: seq<Event>)
    requires Inv(s) && Dead(s)
    ensures Dead(Steps(s, fs)) && Steps(s, fs).served == s.served
  {
    if fs != [] {
      DeadForever(s, fs[..|fs| - 1]);
      InvFrom(s, fs[..|fs| - 1]);
      DeadStays(Steps(s, fs[..|fs| - 1]), fs[|fs| - 1]);
    }
  }

  lemma StepsSnoc(s: State, es: seq<Event>, e: Event)
    ensures Steps(s, es + [e]) == Step(Steps(s, es), e)
  {
    assert (es + [e])[..|es + [e]| - 1] == es;
  }

  lemma TwoThrow(a: string, b: string)
    requires a != b
    ensures Dead(Step(Step(Step(Step(Fresh, Call(a)), Call(b)), SignalThrows(0)), SignalThrows(1)))
  {
    var s := Step(Step(Fresh, Call(a)), Call(b));
    assert s.fetches == [Fetch(a, Granted, false), Fetch(b, Granted, false)] && s.sem.count == 0;
  }

  /** Two requests whose signals throw are enough; whatever happens next, no later request is let through. */
  lemma DeadReachable(a: string, b: string, fs: seq<Event>)
    requires a != b
    ensures Dead(Steps(Steps(Fresh, [Call(a), Call(b), SignalThrows(0), SignalThrows(1)]), fs))
  {
    TwoThrow(a, b);
    StepsSnoc(Fresh, [], Call(a));
    StepsSnoc(Fresh, [Call(a)], Call(b));
    StepsSnoc(Fresh, [Call(a), Call(b)], SignalThrows(0));
    StepsSnoc(Fresh, [Call(a), Call(b), SignalThrows(0)], SignalThrows(1));
    assert [] + [Call(a)] == [Call(a)] && [Call(a)] + [Call(b)] == [Call(a), Call(b)];
    assert [Call(a), Call(b)] + [SignalThrows(0)] == [Call(a), Call(b), SignalThrows(0)];
    assert [Call(a), Call(b), SignalThrows(0)] + [SignalThrows(1)] == [Call(a), Call(b), SignalThrows(0), SignalThrows(1)];
    RunsKeep([Call(a), Call(b), SignalThrows(0), SignalThrows(1)]);
    DeadForever(Steps(Fresh, [Call(a), Call(b), SignalThrows(0), SignalThrows(1)]), fs);
  }

  // ---------- The client's fields ----------

  class Client {
    const semaphore: Semaphore
    var inflight: map<string, nat>
    var fetches: seq<Fetch>

    constructor ()
      ensures fresh(semaphore) && semaphore.View() == Sem(MAX_CONCURRENT, [])
      ensures inflight == map[] && fetches == []
    {
      semaphore := new Semaphore(MAX_CONCURRENT);
      inflight, fetches := map[], [];
    }

    /** The client's fields are those of the state. */
    ghost predicate Shows(s: State)
      reads this, semaphore
    {
      semaphore.View() == s.sem && inflight == s.inflight && fetches == s.fetches
    }

    /** `dedupFetch`; the result is the caller's promise. */
    method DedupFetch(url: string, ghost s: State) returns (p: nat)
      requires Shows(s)
      modifies this, semaphore
      ensures Shows(OnCall(s, url)) && OnCall(s, url).calls == s.calls + [p]
    {
      if url in inflight {
        return inflight[url];
      }
      p := |fetches|;
      var now := semaphore.AcquireFor(p);
      fetches := fetches + [Fetch(url, if now then Granted else Queued, false)];
      inflight := inflight[url := p];
    }

    /** The fetch of promise p settles: its `finally` releases the permit. */
    method FetchSettled(p: nat, outcome: Outcome, ghost s: State)
      requires Shows(s) && Inv(s) && p < |fetches| && fetches[p].status == Fetching
      modifies this, semaphore
      ensures Shows(OnSettle(s, p, outcome))
    {
      fetches := fetches[p := fetches[p].(status := Settled(outcome))];
      if |semaphore.queue| > 0 { assert semaphore.queue[0] in s.sem.queue; assert Waits(s, semaphore.queue[0]); }
      var next := semaphore.ReleaseOne();
      if next.Some? {
        fetches := fetches[next.value := fetches[next.value].(status := Granted)];
      }
    }

    /** `promise.finally(() => this.inflight.delete(url))` */
    method RemoveSettled(p: nat, ghost s: State)
      requires Shows(s) && p < |fetches| && fetches[p].status.Settled? && !fetches[p].removed
      modifies this
      ensures Shows(OnCleanup(s, p))
    {
      inflight := inflight - {fetches[p].url};
      fetches := fetches[p := fetches[p].(removed := true)];
    }
  }
}
