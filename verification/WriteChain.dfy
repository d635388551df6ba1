/**
 * `handlePersist`'s promise chains on the JavaScript microtask queue. Write i of a key is chained as
 * `prev.catch(..).then(persistWithRetry)`, its acknowledgement as `next.then(..)`; settling a promise
 * queues its reactions in the order they were registered, and jobs run first-in first-out.
 */
module WriteChain {
  /** Per key: writes handed over, `persistWithRetry` calls begun and settled, acknowledgements made. */
  datatype Chain = Chain(issued: nat, begun: nat, resolved: nat, acked: nat)

  datatype Job =
    | PassOn(key: string, i: nat)  // prev settled: `.catch(() => {})` lets the chain go on
    | Begin(key: string, i: nat)   // `.then(() => persistWithRetry(..))`
    | Notify(key: string, i: nat)  // `next.then(() => channel_monitor_updated(..))`

  datatype State = State(chains: map<string, Chain>, jobs: seq<Job>, log: seq<Job>)

  datatype Event = Handle(key: string) | RunJob | Settle(key: string)

  function At(s: State, key: string): Chain {
    if key in s.chains then s.chains[key] else Chain(0, 0, 0, 0)
  }

  function OnHandle(s: State, key: string): State {
    var c := At(s, key);
    var settled := c.issued == 0 || c.issued - 1 < c.resolved;
    State(s.chains[key := c.(issued := c.issued + 1)],
          s.jobs + if settled then [PassOn(key, c.issued)] else [],
          s.log)
  }

  /** The running `persistWithRetry` returns: its acknowledgement was registered before any successor. */
  function OnSettle(s: State, key: string): State {
    var c := At(s, key);
    if c.begun <= c.resolved then s
    else
      State(s.chains[key := c.(resolved := c.resolved + 1)],
            s.jobs + [Notify(key, c.resolved)]
                   + if c.issued > c.resolved + 1 then [PassOn(key, c.resolved + 1)] else [],
            s.log)
  }

  function OnJob(s: State): State {
    if s.jobs == [] then s
    else
      var j, rest := s.jobs[0], s.jobs[1..];
      var c := At(s, j.key);
      match j
      case PassOn(key, i) => State(s.chains, rest + [Begin(key, i)], s.log)
      case Begin(key, i) => State(s.chains[key := c.(begun := c.begun + 1)], rest, s.log + [j])
      case Notify(key, i) => State(s.chains[key := c.(acked := c.acked + 1)], rest, s.log + [j])
  }

  function Step(s: State, e: Event): State {
    match e
    case Handle(key) => OnHandle(s, key)
    case RunJob => OnJob(s)
    case Settle(key) => OnSettle(s, key)
  }

  function Steps(s: State, es: seq<Event>): State {
    if es == [] then s else Step(Steps(s, es[..|es| - 1]), es[|es| - 1])
  }

  const Idle := State(map[], [], [])

  // ---------- One key's share of the queue and of the log ----------

  function Of(jobs: seq<Job>, key: string): (r: seq<Job>)
  {
    if jobs == [] then []
    else (if jobs[0].key == key then [jobs[0]] else []) + Of(jobs[1..], key)
  }

  lemma {:induction false} OfJoin(a: seq<Job>, b: seq<Job>, key: string)
    ensures Of(a + b, key) == Of(a, key) + Of(b, key)
  {
    if a == [] {
      assert a + b == b;
    } else {
      assert (a + b)[1..] == a[1..] + b;
      OfJoin(a[1..], b, key);
    }
  }

  /** begin 0, notify 0, begin 1, notify 1, ... */
  function Alternating(key: string, n: nat): seq<Job> {
    if n == 0 then []
    else Alternating(key, n - 1) + [if n % 2 == 1 then Begin(key, n / 2) else Notify(key, n / 2 - 1)]
  }

  /** What the queue may hold for a key: a due acknowledgement first, then at most one step of the next write. */
  ghost predicate Queued(c: Chain, key: string, jobs: seq<Job>) {
    if c.begun == c.resolved < c.issued then
      if c.resolved == c.acked then jobs == [PassOn(key, c.resolved)] || jobs == [Begin(key, c.resolved)]
      else jobs == [Notify(key, c.acked), PassOn(key, c.resolved)]
    else
      jobs == if c.resolved == c.acked then [] else [Notify(key, c.acked)]
  }

  ghost predicate InTurn(c: Chain, key: string, jobs: seq<Job>, log: seq<Job>) {
    && c.acked <= c.resolved <= c.begun <= c.issued
    && c.resolved <= c.acked + 1 && c.begun <= c.acked + 1
    && Queued(c, key, jobs)
    && log == Alternating(key, c.begun + c.acked)
  }

  ghost predicate KeyInv(s: State, key: string) {
    InTurn(At(s, key), key, Of(s.jobs, key), Of(s.log, key))
  }

  /** Appending at most one job. */
  lemma OfSnoc(jobs: seq<Job>, due: bool, j: Job, key: string)
    ensures Of(jobs + if due then [j] else [], key) == Of(jobs, key) + if due && j.key == key then [j] else []
  {
    OfJoin(jobs, if due then [j] else [], key);
    assert [j][1..] == [];
  }

  lemma HandleJobs(s: State, k: string, key: string)
    ensures var c := At(s, k);
      Of(OnHandle(s, k).jobs, key) == Of(s.jobs, key) +
        if k == key && (c.issued == 0 || c.issued - 1 < c.resolved) then [PassOn(k, c.issued)] else []
  {
    var c := At(s, k);
    OfSnoc(s.jobs, c.issued == 0 || c.issued - 1 < c.resolved, PassOn(k, c.issued), key);
  }

  lemma HandleKeeps(s: State, k: string, key: string)
    requires KeyInv(s, key)
    ensures KeyInv(OnHandle(s, k), key)
  {
    HandleJobs(s, k, key);
    if k == key {
      HandleInTurn(At(s, key), key, Of(s.jobs, key), Of(s.log, key));
    } else {
      assert At(OnHandle(s, k), key) == At(s, key);
    }
  }

  lemma HandleInTurn(c: Chain, key: string, jobs: seq<Job>, log: seq<Job>)
    requires InTurn(c, key, jobs, log)
    ensures InTurn(c.(issued := c.issued + 1), key,
                   jobs + if c.issued == 0 || c.issued - 1 < c.resolved then [PassOn(key, c.issued)] else [], log)
  {
  }

  lemma SettleJobs(s: State, k: string, key: string)
    requires At(s, k).begun > At(s, k).resolved
    ensures var c := At(s, k);
      Of(OnSettle(s, k).jobs, key) == Of(s.jobs, key) +
        if k != key then []
        else [Notify(k, c.resolved)] + if c.issued > c.resolved + 1 then [PassOn(k, c.resolved + 1)] else []
  {
    var c := At(s, k);
    OfSnoc(s.jobs + [Notify(k, c.resolved)], c.issued > c.resolved + 1, PassOn(k, c.resolved + 1), key);
    OfSnoc(s.jobs, true, Notify(k, c.resolved), key);
  }

  lemma SettleKeeps(s: State, k: string, key: string)
    requires KeyInv(s, key)
    ensures KeyInv(OnSettle(s, k), key)
  {
    if At(s, k).begun > At(s, k).resolved { SettleJobs(s, k, key); }
  }

  lemma JobOfOther(s: State, key: string)
    requires KeyInv(s, key) && s.jobs != [] && s.jobs[0].key != key
    ensures KeyInv(OnJob(s), key)
  {
    var j := s.jobs[0];
    assert Of([j], key) == [] && Of([Begin(j.key, j.i)], key) == [];
    OfJoin(s.log, [j], key);
    OfJoin(s.jobs[1..], [Begin(j.key, j.i)], key);
  }

  /** The head of the queue is the head of its key's share. */
  lemma HeadOf(s: State, key: string)
    requires s.jobs != [] && s.jobs[0].key == key
    ensures Of(s.jobs, key) == [s.jobs[0]] + Of(s.jobs[1..], key)
    ensures Of([s.jobs[0]], key) == [s.jobs[0]]
    ensures Of(s.log + [s.jobs[0]], key) == Of(s.log, key) + [s.jobs[0]]
  {
    OfJoin(s.log, [s.jobs[0]], key);
  }

  lemma PassOnKeeps(s: State, key: string)
    requires KeyInv(s, key) && s.jobs != [] && s.jobs[0].PassOn? && s.jobs[0].key == key
    ensures KeyInv(OnJob(s), key)
  {
    var i := s.jobs[0].i;
    HeadOf(s, key);
    assert Of(s.jobs, key)[0] == s.jobs[0];
    assert Of(s.jobs[1..], key) == Of(s.jobs, key)[1..] == [];
    assert Of([Begin(key, i)], key) == [Begin(key, i)];
    OfJoin(s.jobs[1..], [Begin(key, i)], key);
  }

  lemma RunKeeps(s: State, key: string)
    requires KeyInv(s, key) && s.jobs != [] && !s.jobs[0].PassOn? && s.jobs[0].key == key
    ensures KeyInv(OnJob(s), key)
  {
    var c := At(s, key);
    HeadOf(s, key);
    assert s.jobs[0] == Of(s.jobs, key)[0];
    var n := c.begun + c.acked;
    assert Alternating(key, n + 1) == Alternating(key, n) + [s.jobs[0]];
    assert Of(s.jobs[1..], key) == Of(s.jobs, key)[1..];
  }

  lemma JobKeeps(s: State, key: string)
    requires KeyInv(s, key)
    ensures KeyInv(OnJob(s), key)
  {
    if s.jobs != [] {
      if s.jobs[0].key != key { JobOfOther(s, key); }
      else if s.jobs[0].PassOn? { PassOnKeeps(s, key); }
      else { RunKeeps(s, key); }
    }
  }

  lemma {:induction false} RunsKeep(es: seq<Event>, key: string)
    ensures KeyInv(Steps(Idle, es), key)
  {
    if es == [] {
      assert Alternating(key, 0) == [];
    } else {
      var s, e := Steps(Idle, es[..|es| - 1]), es[|es| - 1];
      RunsKeep(es[..|es| - 1], key);
      match e
      case Handle(k) => HandleKeeps(s, k, key);
      case RunJob => JobKeeps(s, key);
      case Settle(k) => SettleKeeps(s, k, key);
    }
  }

  /**
   * Per-channel order, whatever the other channels do: a key's writes begin and are acknowledged strictly
   * in turn, begin 0, ack 0, begin 1, ack 1, ..., so at most one is active and write i is acknowledged
   * before write i + 1 starts; and once the microtasks have run, a waiting write is waiting for a running one.
   */
  lemma ChannelOrder(es: seq<Event>, key: string)
    ensures var s := Steps(Idle, es);
      var c := At(s, key);
      && Of(s.log, key) == Alternating(key, |Of(s.log, key)|)
      && c.acked <= c.begun <= c.acked + 1
      && (s.jobs == [] ==> c.acked == c.resolved && (c.resolved < c.issued ==> c.begun == c.resolved + 1))
  {
    RunsKeep(es, key);
    AlternatingLength(key, At(Steps(Idle, es), key).begun + At(Steps(Idle, es), key).acked);
  }

  lemma {:induction false} AlternatingLength(key: string, n: nat)
    ensures |Alternating(key, n)| == n
  {
    if n > 0 { AlternatingLength(key, n - 1); }
  }
}
