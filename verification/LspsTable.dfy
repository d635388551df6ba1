/**
 * The LSPS0 request table: requests wait in `pending` under their JSON-RPC id, payloads in `outbound`
 * until LDK drains them. Every accepted request has a promise; `requests` keeps, as history, what each
 * promise was told.
 */
module LspsTable {
  import opened Common

  const REQUEST_TIMEOUT_MS: int := 30_000
  const MAX_PENDING_PER_PEER: nat := 10

  datatype Entry = Entry(req: nat, createdAt: int, peer: string)

  datatype Message = Message(peer: string, payload: string)

  /** What a promise is told: a response from `sender`, or why it is rejected. */
  datatype Settlement = Resolved(sender: string, id: string) | TimedOut | Disconnected | Destroyed

  datatype Request = Request(id: string, peer: string, told: seq<Settlement>)

  datatype State = State(
    pending: map<string, Entry>,
    outbound: seq<Message>,
    alive: bool,
    now: int,
    requests: seq<Request>,
    accepted: seq<Message>,
    handed: seq<Message>)

  /** `id` is what the payload parses to, if it is JSON at all; a dropped message carries no response id. */
  datatype Event =
    | Send(peer: string, payload: string, id: Option<string>)
    | Receive(sender: string, id: Option<string>)
    | Drain
    | Disconnect(peer: string)
    | Reap
    | Destroy
    | Elapse(ms: nat)

  const Fresh := State(map[], [], true, 0, [], [], [])

  function OfPeer(pending: map<string, Entry>, peer: string): set<string> {
    set id | id in pending && pending[id].peer == peer
  }

  /** Tells the promise of entry `e`, the one way a promise settles. */
  function Tell(requests: seq<Request>, e: Entry, what: Settlement): seq<Request> {
    if e.req < |requests| then requests[e.req := requests[e.req].(told := requests[e.req].told + [what])] else requests
  }

  predicate Accepts(s: State, e: Event) {
    e.Send? && |OfPeer(s.pending, e.peer)| < MAX_PENDING_PER_PEER && e.id.Some?
  }

  /** `sendRequest`; a refused or unparsable request leaves no trace. */
  function OnSend(s: State, peer: string, payload: string, id: string): State {
    s.(pending := s.pending[id := Entry(|s.requests|, s.now, peer)],
       outbound := s.outbound + [Message(peer, payload)],
       requests := s.requests + [Request(id, peer, [])],
       accepted := s.accepted + [Message(peer, payload)])
  }

  /** `handle_custom_message` */
  function OnReceive(s: State, sender: string, id: string): State {
    if id in s.pending && s.pending[id].peer == sender then
      s.(pending := s.pending - {id}, requests := Tell(s.requests, s.pending[id], Resolved(sender, id)))
    else s
  }

  /** Rejects and removes the entries with these ids. */
  function RejectAll(s: State, ids: set<string>, what: Settlement): State {
    s.(pending := s.pending - ids,
       requests := seq(|s.requests|, r requires 0 <= r < |s.requests| =>
         if (exists id :: id in ids && id in s.pending && s.pending[id].req == r) then
           s.requests[r].(told := s.requests[r].told + [what])
         else s.requests[r]))
  }

  function Overdue(s: State): set<string> {
    set id | id in s.pending && s.now - s.pending[id].createdAt > REQUEST_TIMEOUT_MS
  }

  function Step(s: State, e: Event): State {
    match e
    case Send(peer, payload, id) => if Accepts(s, e) then OnSend(s, peer, payload, id.value) else s
    case Receive(sender, id) => if id.Some? then OnReceive(s, sender, id.value) else s
    case Drain => s.(outbound := [], handed := s.handed + s.outbound)
    case Disconnect(peer) => RejectAll(s, OfPeer(s.pending, peer), Disconnected)
    case Reap => if s.alive then RejectAll(s, Overdue(s), TimedOut) else s
    case Destroy => RejectAll(s, s.pending.Keys, Destroyed).(alive := false)
    case Elapse(ms) => s.(now := s.now + ms)
  }

  function Steps(s: State, es: seq<Event>): State {
    if es == [] then s else Step(Steps(s, es[..|es| - 1]), es[|es| - 1])
  }

  // ---------- Whatever the ids ----------

  predicate Unsettled(s: State, r: nat) {
    r < |s.requests| && s.requests[r].told == []
  }

  predicate InTable(s: State, r: nat) {
    r < |s.requests| && s.requests[r].id in s.pending && s.pending[s.requests[r].id].req == r
  }

  /** A promise that was told something was told one thing, and a response came from its own peer under its own id. */
  ghost predicate ToldOnce(q: Request) {
    |q.told| <= 1 && (q.told != [] && q.told[0].Resolved? ==> q.told[0] == Resolved(q.peer, q.id))
  }

  ghost predicate EntryOk(s: State, id: string)
    requires id in s.pending
  {
    var e := s.pending[id];
    && e.req < |s.requests| && s.requests[e.req].id == id && s.requests[e.req].peer == e.peer
    && s.requests[e.req].told == []
  }

  ghost predicate Inv(s: State) {
    && (forall id :: id in s.pending ==> EntryOk(s, id))
    && (forall r :: 0 <= r < |s.requests| ==> ToldOnce(s.requests[r]))
    && (forall peer :: |OfPeer(s.pending, peer)| <= MAX_PENDING_PER_PEER)
    && s.accepted == s.handed + s.outbound
  }

  lemma {:induction false} Smaller(a: set<string>, b: set<string>)
    requires a <= b
    ensures |a| <= |b|
  {
    if a != {} {
      var x :| x in a;
      Smaller(a - {x}, b - {x});
    }
  }

  /** Removing entries never raises a peer's count. */
  lemma FewerPending(small: map<string, Entry>, big: map<string, Entry>, peer: string)
    requires forall id :: id in small ==> id in big && small[id] == big[id]
    ensures |OfPeer(small, peer)| <= |OfPeer(big, peer)|
  {
    Smaller(OfPeer(small, peer), OfPeer(big, peer));
  }

  lemma SendKeeps(s: State, peer: string, payload: string, id: string)
    requires Inv(s) && |OfPeer(s.pending, peer)| < MAX_PENDING_PER_PEER
    ensures Inv(OnSend(s, peer, payload, id))
  {
    var t := OnSend(s, peer, payload, id);
    forall p ensures |OfPeer(t.pending, p)| <= MAX_PENDING_PER_PEER {
      if p == peer {
        Smaller(OfPeer(t.pending, p), OfPeer(s.pending, p) + {id});
      } else {
        Smaller(OfPeer(t.pending, p), OfPeer(s.pending, p));
      }
    }
    forall i | i in t.pending ensures EntryOk(t, i) {
      if i != id { assert EntryOk(s, i); }
    }
  }

  lemma RejectKeeps(s: State, ids: set<string>, what: Settlement)
    requires Inv(s) && !what.Resolved?
    ensures Inv(RejectAll(s, ids, what))
  {
    var t := RejectAll(s, ids, what);
    forall p ensures |OfPeer(t.pending, p)| <= MAX_PENDING_PER_PEER {
      FewerPending(t.pending, s.pending, p);
    }
    forall i | i in t.pending ensures EntryOk(t, i) {
      assert EntryOk(s, i);
      forall id | id in ids && id in s.pending ensures s.pending[id].req != s.pending[i].req {
        assert EntryOk(s, id);
      }
    }
    forall r | 0 <= r < |t.requests| ensures ToldOnce(t.requests[r]) {
      assert ToldOnce(s.requests[r]);
      if id :| id in ids && id in s.pending && s.pending[id].req == r {
        assert EntryOk(s, id);
      }
    }
  }

  lemma ReceiveKeeps(s: State, sender: string, id: string)
    requires Inv(s)
    ensures Inv(OnReceive(s, sender, id))
  {
    if id in s.pending && s.pending[id].peer == sender {
      var t := OnReceive(s, sender, id);
      assert EntryOk(s, id);
      forall p ensures |OfPeer(t.pending, p)| <= MAX_PENDING_PER_PEER {
        FewerPending(t.pending, s.pending, p);
      }
      forall i | i in t.pending ensures EntryOk(t, i) {
        assert EntryOk(s, i);
      }
      forall r | 0 <= r < |t.requests| ensures ToldOnce(t.requests[r]) {
        assert ToldOnce(s.requests[r]);
      }
    }
  }

  lemma StepKeeps(s: State, e: Event)
    requires Inv(s)
    ensures Inv(Step(s, e))
  {
    match e
    case Send(peer, payload, id) => if Accepts(s, e) { SendKeeps(s, peer, payload, id.value); }
    case Receive(sender, id) => if id.Some? { ReceiveKeeps(s, sender, id.value); }
    case Drain => assert s.handed + s.outbound + [] == s.handed + s.outbound;
    case Disconnect(peer) => RejectKeeps(s, OfPeer(s.pending, peer), Disconnected);
    case Reap => RejectKeeps(s, Overdue(s), TimedOut);
    case Destroy => RejectKeeps(s, s.pending.Keys, Destroyed);
    case Elapse(ms) =>
      forall id | id in s.pending ensures EntryOk(Step(s, e), id) { assert EntryOk(s, id); }
  }

  lemma {:induction false} RunsKeep(es: seq<Event>)
    ensures Inv(Steps(Fresh, es))
  {
    if es == [] {
      forall peer ensures |OfPeer(Fresh.pending, peer)| == 0 { assert OfPeer(Fresh.pending, peer) == {}; }
    } else {
      RunsKeep(es[..|es| - 1]);
      StepKeeps(Steps(Fresh, es[..|es| - 1]), es[|es| - 1]);
    }
  }

  /**
   * For every history: a promise settles at most once, a response settles it only if it comes from the
   * request's peer under the request's id, no peer ever has more than ten pending, and every accepted
   * payload is handed out or still waiting, once and in order.
   */
  lemma TableSafe(es: seq<Event>)
    ensures var s := Steps(Fresh, es);
      && (forall r :: 0 <= r < |s.requests| ==> ToldOnce(s.requests[r]))
      && (forall peer :: |OfPeer(s.pending, peer)| <= 10)
      && s.accepted == s.handed + s.outbound
      && Step(s, Drain).handed == s.accepted
  {
    RunsKeep(es);
  }

  /** A reaper pass removes exactly the entries older than 30 s. */
  lemma ReapExact(s: State, id: string)
    requires s.alive
    ensures var t := Step(s, Reap);
      id in t.pending <==> id in s.pending && t.now - s.pending[id].createdAt <= 30_000
    ensures var t := Step(s, Reap);
      id in t.pending ==> t.pending[id] == s.pending[id] && t.now - t.pending[id].createdAt <= 30_000
  {
  }

  // ---------- Distinct ids ----------

  /** A new request is accepted under an id that is still waiting. */
  predicate Reuses(s: State, e: Event) {
    Accepts(s, e) && e.id.value in s.pending
  }

  predicate NoReuse(es: seq<Event>) {
    es == [] || (NoReuse(es[..|es| - 1]) && !Reuses(Steps(Fresh, es[..|es| - 1]), es[|es| - 1]))
  }

  /** The table holds exactly the unsettled requests. */
  ghost predicate Exact(s: State) {
    forall r: nat :: r < |s.requests| ==> (Unsettled(s, r) <==> InTable(s, r))
  }

  lemma InTableUnsettled(s: State, r: nat)
    requires Inv(s) && InTable(s, r)
    ensures Unsettled(s, r)
  {
    assert EntryOk(s, s.requests[r].id);
  }

  /** A request that dropped out unsettled stays out and unsettled for ever. */
  lemma {:induction false} LostForever(s: State, es: seq<Event>, r: nat)
    requires Inv(s) && Unsettled(s, r) && !InTable(s, r)
    ensures Inv(Steps(s, es)) && Unsettled(Steps(s, es), r) && !InTable(Steps(s, es), r)
  {
    if es != [] {
      LostForever(s, es[..|es| - 1], r);
      StepKeeps(Steps(s, es[..|es| - 1]), es[|es| - 1]);
      LostStays(Steps(s, es[..|es| - 1]), es[|es| - 1], r);
    }
  }

  lemma LostStays(s: State, e: Event, r: nat)
    requires Inv(s) && Unsettled(s, r) && !InTable(s, r)
    ensures Unsettled(Step(s, e), r) && !InTable(Step(s, e), r)
  {
    forall id | id in s.pending ensures s.pending[id].req != r {
      assert EntryOk(s, id);
    }
  }

  lemma RejectExact(s: State, ids: set<string>, what: Settlement)
    requires Inv(s) && Exact(s)
    ensures Exact(RejectAll(s, ids, what))
  {
    var t := RejectAll(s, ids, what);
    forall r: nat | r < |t.requests| ensures Unsettled(t, r) <==> InTable(t, r) {
      assert Unsettled(s, r) <==> InTable(s, r);
      if id :| id in ids && id in s.pending && s.pending[id].req == r {
        assert EntryOk(s, id);
      } else if InTable(s, r) {
        assert s.requests[r].id !in ids;
      }
    }
  }

  lemma ReceiveExact(s: State, sender: string, id: string)
    requires Inv(s) && Exact(s)
    ensures Exact(OnReceive(s, sender, id))
  {
    var t := OnReceive(s, sender, id);
    if id in s.pending { assert EntryOk(s, id); }
    forall r: nat | r < |t.requests| ensures Unsettled(t, r) <==> InTable(t, r) {
      assert Unsettled(s, r) <==> InTable(s, r);
      if InTable(s, r) { assert EntryOk(s, s.requests[r].id); }
    }
  }

  lemma SendExact(s: State, peer: string, payload: string, id: string)
    requires Inv(s) && Exact(s) && id !in s.pending
    ensures Exact(OnSend(s, peer, payload, id))
  {
    var t := OnSend(s, peer, payload, id);
    forall r: nat | r < |t.requests| ensures Unsettled(t, r) <==> InTable(t, r) {
      if r < |s.requests| { assert Unsettled(s, r) <==> InTable(s, r); }
    }
  }

  lemma StepExact(s: State, e: Event)
    requires Inv(s) && Exact(s) && !Reuses(s, e)
    ensures Exact(Step(s, e))
  {
    match e
    case Send(peer, payload, id) => if Accepts(s, e) { SendExact(s, peer, payload, id.value); }
    case Receive(sender, id) => if id.Some? { ReceiveExact(s, sender, id.value); }
    case Drain => SameTable(s, Step(s, e));
    case Disconnect(peer) => RejectExact(s, OfPeer(s.pending, peer), Disconnected);
    case Reap => RejectExact(s, Overdue(s), TimedOut);
    case Destroy =>
      RejectExact(s, s.pending.Keys, Destroyed);
      SameTable(RejectAll(s, s.pending.Keys, Destroyed), Step(s, e));
    case Elapse(ms) => SameTable(s, Step(s, e));
  }

  lemma SameTable(s: State, t: State)
    requires s.pending == t.pending && s.requests == t.requests && Exact(s)
    ensures Exact(t)
  {
    forall r: nat | r < |t.requests| ensures Unsettled(t, r) <==> InTable(t, r) {
      assert Unsettled(s, r) <==> InTable(s, r);
    }
  }

  /** The older request is overwritten: its promise is forgotten. */
  lemma ReuseLoses(s: State, e: Event)
    requires Inv(s) && Reuses(s, e)
    ensures var r := s.pending[e.id.value].req; Unsettled(Step(s, e), r) && !InTable(Step(s, e), r)
  {
    assert EntryOk(s, e.id.value);
  }

  /**
   * Exactly when "unsettled if and only if pending" holds: no request was ever accepted under an id that
   * was still waiting.
   */
  lemma {:induction false} ExactIff(es: seq<Event>)
    ensures Exact(Steps(Fresh, es)) <==> NoReuse(es)
  {
    if es != [] {
      var front, e := es[..|es| - 1], es[|es| - 1];
      var s := Steps(Fresh, front);
      ExactIff(front);
      RunsKeep(front);
      if Exact(s) && !Reuses(s, e) {
        StepExact(s, e);
      } else if Exact(s) {
        ReuseLoses(s, e);
        assert !(Unsettled(Step(s, e), s.pending[e.id.value].req) <==> InTable(Step(s, e), s.pending[e.id.value].req));
      } else {
        var r: nat :| r < |s.requests| && !(Unsettled(s, r) <==> InTable(s, r));
        if InTable(s, r) { InTableUnsettled(s, r); }
        LostStays(s, e, r);
        assert !(Unsettled(Step(s, e), r) <==> InTable(Step(s, e), r));
      }
    }
  }

  // ---------- What becomes of a request ----------

  /**
   * The verdict an event brings to a waiting request of this id and peer, sent at `sentAt`: a response
   * from its own peer under its id, its peer going away, a reaper pass after more than 30 s, the end.
   */
  function Verdict(e: Event, q: Request, age: int, alive: bool): Option<Settlement> {
    match e
    case Receive(sender, id) => if id == Some(q.id) && sender == q.peer then Some(Resolved(sender, q.id)) else None
    case Disconnect(peer) => if peer == q.peer then Some(Disconnected) else None
    case Reap => if alive && age > 30_000 then Some(TimedOut) else None
    case Destroy => Some(Destroyed)
    case Send(_, _, _) => None
    case Drain => None
    case Elapse(_) => None
  }

  /** Request r waits in the table since `sentAt`. */
  ghost predicate WaitsSince(s: State, r: nat, sentAt: int) {
    InTable(s, r) && s.pending[s.requests[r].id].createdAt == sentAt
  }

  /** One event settles a waiting request exactly with its verdict; without one the request goes on waiting. */
  lemma VerdictGiven(s: State, e: Event, r: nat, sentAt: int)
    requires Inv(s) && WaitsSince(s, r, sentAt)
    requires Accepts(s, e) ==> e.id != Some(s.requests[r].id)
    ensures var t, v := Step(s, e), Verdict(e, s.requests[r], s.now - sentAt, s.alive);
      && r < |t.requests| && t.requests[r].id == s.requests[r].id && t.requests[r].peer == s.requests[r].peer
      && t.requests[r].told == (if v.Some? then [v.value] else [])
      && (v.None? ==> WaitsSince(t, r, sentAt))
      && (v.Some? ==> !InTable(t, r))
  {
    var id := s.requests[r].id;
    assert EntryOk(s, id);
    if e.Receive? && e.id.Some? && e.id.value in s.pending { assert EntryOk(s, e.id.value); }
    forall i | i in s.pending && s.pending[i].req == r ensures i == id { assert EntryOk(s, i); }
  }

  /** A settled request is never told anything again, nor is it waiting. */
  lemma SettledRests(s: State, e: Event, r: nat)
    requires Inv(s) && r < |s.requests| && s.requests[r].told != []
    ensures var t := Step(s, e); r < |t.requests| && t.requests[r] == s.requests[r]
  {
    forall i | i in s.pending ensures s.pending[i].req != r { assert EntryOk(s, i); }
  }

  /** Milliseconds that pass along a script. */
  function Passed(es: seq<Event>): nat {
    if es == [] then 0 else Passed(es[..|es| - 1]) + if es[|es| - 1].Elapse? then es[|es| - 1].ms else 0
  }

  /** The clock shows the time passed, and the reaper runs until the end. */
  lemma {:induction false} ClockAndEnd(es: seq<Event>)
    ensures Steps(Fresh, es).now == Passed(es)
    ensures Steps(Fresh, es).alive <==> Destroy !in es
  {
    if es != [] {
      ClockAndEnd(es[..|es| - 1]);
      assert es == es[..|es| - 1] + [es[|es| - 1]];
    }
  }

  /** No request is accepted under this id along the script. */
  predicate IdFree(s: State, es: seq<Event>, id: string) {
    es == []
    || (IdFree(s, es[..|es| - 1], id) && (Accepts(Steps(s, es[..|es| - 1]), es[|es| - 1]) ==> es[|es| - 1].id != Some(id)))
  }

  /** The first verdict along the script. */
  function Fate(s: State, es: seq<Event>, q: Request, sentAt: int): Option<Settlement> {
    if es == [] then None
    else
      var before, t := Fate(s, es[..|es| - 1], q, sentAt), Steps(s, es[..|es| - 1]);
      if before.Some? then before else Verdict(es[|es| - 1], q, t.now - sentAt, t.alive)
  }

  lemma {:induction false} InvFrom(s: State, es: seq<Event>)
    requires Inv(s)
    ensures Inv(Steps(s, es))
  {
    if es != [] {
      InvFrom(s, es[..|es| - 1]);
      StepKeeps(Steps(s, es[..|es| - 1]), es[|es| - 1]);
    }
  }

  /**
   * A request is settled along any script with exactly the first verdict on it, be it a response, a
   * disconnect, a timeout or the end; until then it waits. Its id must not be taken by a newer request.
   */
  lemma {:induction false} RequestFate(s: State, es: seq<Event>, r: nat, sentAt: int)
    requires Inv(s) && WaitsSince(s, r, sentAt) && IdFree(s, es, s.requests[r].id)
    ensures var t, v := Steps(s, es), Fate(s, es, s.requests[r], sentAt);
      && r < |t.requests| && t.requests[r].id == s.requests[r].id && t.requests[r].peer == s.requests[r].peer
      && t.requests[r].told == (if v.Some? then [v.value] else [])
      && (v.None? ==> WaitsSince(t, r, sentAt))
  {
    if es == [] {
      InTableUnsettled(s, r);
    } else {
      var front, e := es[..|es| - 1], es[|es| - 1];
      var t := Steps(s, front);
      RequestFate(s, front, r, sentAt);
      InvFrom(s, front);
      if Fate(s, front, s.requests[r], sentAt).Some? {
        SettledRests(t, e, r);
      } else {
        VerdictGiven(t, e, r, sentAt);
        assert Verdict(e, t.requests[r], t.now - sentAt, t.alive) == Verdict(e, s.requests[r], t.now - sentAt, t.alive);
      }
    }
  }

  /**
   * A request is accepted exactly when its payload has an id and fewer than ten of its peer's requests
   * wait; it then waits from now on and its payload is queued, else nothing happens.
   */
  lemma AcceptedIff(es: seq<Event>, peer: string, payload: string, id: Option<string>)
    ensures var s := Steps(Fresh, es);
      var t, r := Step(s, Send(peer, payload, id)), |s.requests|;
      if id.Some? && |OfPeer(s.pending, peer)| < 10 then
        && |t.requests| == r + 1 && t.requests[r] == Request(id.value, peer, []) && WaitsSince(t, r, s.now)
        && t.outbound == s.outbound + [Message(peer, payload)] && t.handed == s.handed
      else t == s
  {
  }

  // ---------- The handler ----------

  class Handler {
    var pending: map<string, Entry>
    var outbound: seq<Message>
    var alive: bool
    var now: int
    var requests: seq<Request>
    ghost var accepted: seq<Message>
    ghost var handed: seq<Message>

    ghost function View(): State
      reads this
    {
      State(pending, outbound, alive, now, requests, accepted, handed)
    }

    constructor ()
      ensures View() == Fresh
    {
      pending, outbound, alive, now, requests := map[], [], true, 0, [];
      accepted, handed := [], [];
    }

    /** The loop over `pending.values()`. */
    method CountOf(peer: string) returns (n: nat)
      ensures n == |OfPeer(pending, peer)|
    {
      n := 0;
      var todo := pending.Keys;
      ghost var seen: set<string> := {};
      while todo != {}
        invariant todo <= pending.Keys && seen <= OfPeer(pending, peer) && n == |seen|
        invariant OfPeer(pending, peer) <= seen + todo && seen !! todo
        decreases todo
      {
        var id :| id in todo;
        todo := todo - {id};
        if pending[id].peer == peer {
          seen := seen + {id};
          n := n + 1;
        }
      }
      assert seen == OfPeer(pending, peer);
    }

    /** `sendRequest`; the promise is the request's index, or it is rejected or never made. */
    method SendRequest(peer: string, payload: string, id: Option<string>) returns (req: Option<nat>)
      modifies this
      ensures View() == Step(old(View()), Send(peer, payload, id))
      ensures req == if Accepts(old(View()), Send(peer, payload, id)) then Some(|old(requests)|) else None
    {
      var peerCount := CountOf(peer);
      if peerCount >= MAX_PENDING_PER_PEER || id.None? {
        return None;
      }
      req := Some(|requests|);
      pending := pending[id.value := Entry(|requests|, now, peer)];
      outbound := outbound + [Message(peer, payload)];
      requests := requests + [Request(id.value, peer, [])];
      accepted := accepted + [Message(peer, payload)];
    }

    method HandleMessage(sender: string, id: Option<string>)
      modifies this
      ensures View() == Step(old(View()), Receive(sender, id))
    {
      if id.Some? && id.value in pending {
        var entry := pending[id.value];
        if sender == entry.peer {
          pending := pending - {id.value};
          requests := Tell(requests, entry, Resolved(sender, id.value));
        }
      }
    }

    method GetAndClear() returns (messages: seq<Message>)
      modifies this
      ensures View() == Step(old(View()), Drain) && messages == old(outbound)
    {
      messages := outbound;
      outbound := [];
      handed := handed + messages;
    }

    /** The loops that reject and delete while they iterate. */
    method RejectWhere(ids: set<string>, what: Settlement)
      requires Inv(View()) && ids <= pending.Keys
      modifies this`pending, this`requests
      ensures View() == RejectAll(old(View()), ids, what)
    {
      ghost var before := View();
      var todo := pending.Keys;
      ghost var gone: set<string> := {};
      RejectNone(before, what);
      while todo != {}
        invariant todo <= before.pending.Keys && gone <= ids && ids <= gone + todo && gone !! todo
        invariant View() == RejectAll(before, gone, what)
        decreases todo
      {
        var id :| id in todo;
        todo := todo - {id};
        if id in ids {
          RejectMore(before, gone, id, what);
          requests := Tell(requests, pending[id], what);
          pending := pending - {id};
          gone := gone + {id};
        }
      }
      assert gone == ids;
    }

    method PeerDisconnected(peer: string)
      requires Inv(View())
      modifies this`pending, this`requests
      ensures View() == Step(old(View()), Disconnect(peer))
    {
      RejectWhere(OfPeer(pending, peer), Disconnected);
    }

    method ReaperTick()
      requires Inv(View())
      modifies this`pending, this`requests
      ensures View() == Step(old(View()), Reap)
    {
      if alive {
        RejectWhere((set id | id in pending && now - pending[id].createdAt > REQUEST_TIMEOUT_MS), TimedOut);
      }
    }

    method DestroyAll()
      requires Inv(View())
      modifies this
      ensures View() == Step(old(View()), Destroy)
    {
      RejectWhere(pending.Keys, Destroyed);
      alive := false;
    }
  }

  lemma RejectNone(s: State, what: Settlement)
    ensures RejectAll(s, {}, what) == s
  {
    assert RejectAll(s, {}, what).requests == s.requests;
  }

  /** Rejecting one more entry tells one more promise. */
  lemma RejectMore(s: State, ids: set<string>, id: string, what: Settlement)
    requires Inv(s) && id in s.pending && id !in ids
    ensures var t := RejectAll(s, ids, what);
      id in t.pending && RejectAll(s, ids + {id}, what)
        == t.(pending := t.pending - {id}, requests := Tell(t.requests, t.pending[id], what))
  {
    var t, u := RejectAll(s, ids, what), RejectAll(s, ids + {id}, what);
    var e := s.pending[id];
    assert EntryOk(s, id);
    forall i | i in ids && i in s.pending ensures s.pending[i].req != e.req {
      assert EntryOk(s, i);
    }
    assert u.requests == Tell(t.requests, e, what);
    assert u.pending == t.pending - {id};
  }
}
