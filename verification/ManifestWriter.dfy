/**
 * `writeManifest` as the source writes it: one link of the manifest chain, run against a host that
 * plays the other devices, the server and the network from a script. While the link awaits a reply,
 * LDK may open channels, so the key set it merges into and writes again is the one of that moment.
 */
module ManifestWriter {
  import opened Common
  import opened OrderedSet
  import opened Manifest
  import opened ManifestProtocol

  predicate Settles(s: System, me: nat, id: nat, e: Event) {
    e == Fail(me) || (e == Deliver(me) && id in s.replies)
  }

  /** Moves of device `me` that its own code makes, not the host. */
  predicate OwnMove(me: nat, e: Event) {
    e == Begin(me) || e == JoinRecovered(me) || (e.JoinLocal? && e.d == me) || e == Backfill(me)
  }

  predicate Script(me: nat, es: seq<Event>) {
    forall i :: 0 <= i < |es| ==> !OwnMove(me, es[i])
  }

  /** While device `me` awaits, others leave its entry alone; only LDK opening a channel touches it. */
  lemma Passive(s: System, me: nat, e: Event)
    requires me in s.devices && s.devices[me].pc != Idle
    requires !OwnMove(me, e) && !Settles(s, me, s.devices[me].pc.id, e)
    ensures me in Step(s, e).devices
    ensures var v, v' := s.devices[me], Step(s, e).devices[me];
      && v'.pc == v.pc && v'.cached == v.cached
      && v'.keys == if e.NewChannel? && e.d == me then Add(v.keys, e.key) else v.keys
  {
    if e.Deliver? && e.d != me && e.d in s.devices {
      OthersDeliver(s, me, e.d);
    }
  }

  lemma OthersDeliver(s: System, me: nat, d: nat)
    requires me in s.devices && d in s.devices && d != me
    ensures me in OnDeliver(s, d).devices && OnDeliver(s, d).devices[me] == s.devices[me]
  {
  }

  predicate IdsOk(s: System) {
    && (forall id :: id in s.wire ==> id < s.nextId)
    && (forall id :: id in s.replies ==> id < s.nextId)
  }

  lemma IdsStay(s: System, e: Event)
    requires IdsOk(s)
    ensures IdsOk(Step(s, e))
  {
  }

  /** Request `id` is a get: unanswered, or answered with what the server held. */
  predicate GetPending(s: System, id: nat) {
    && id < s.nextId
    && (id in s.wire ==> s.wire[id] == Get)
    && (id in s.replies ==> s.replies[id].Found?)
  }

  lemma GetStays(s: System, e: Event, id: nat)
    requires GetPending(s, id)
    ensures GetPending(Step(s, e), id)
  {
  }

  /** Events i to j of the script, one after the other. */
  ghost function Play(s: System, script: seq<Event>, i: nat, j: nat): System
    requires i <= j <= |script|
    decreases j - i
  {
    if i == j then s else Step(Play(s, script, i, j - 1), script[j - 1])
  }

  lemma {:induction false} PlayIsSteps(s: System, script: seq<Event>, i: nat, j: nat)
    requires i <= j <= |script|
    ensures Play(s, script, i, j) == Steps(s, script[i..j])
    decreases j - i
  {
    if i < j {
      PlayIsSteps(s, script, i, j - 1);
      StepsSnoc(s, script[i..j - 1], script[j - 1]);
      assert script[i..j] == script[i..j - 1] + [script[j - 1]];
    }
  }

  lemma {:induction false} PlayJoin(s: System, script: seq<Event>, i: nat, j: nat, k: nat)
    requires i <= j <= k <= |script|
    ensures Play(s, script, i, k) == Play(Play(s, script, i, j), script, j, k)
    decreases k - j
  {
    if j < k { PlayJoin(s, script, i, j, k - 1); }
  }

  lemma {:induction false} GetStaysAlong(s: System, script: seq<Event>, i: nat, j: nat, id: nat)
    requires GetPending(s, id) && i <= j <= |script|
    ensures GetPending(Play(s, script, i, j), id)
    decreases j - i
  {
    if i < j {
      GetStaysAlong(s, script, i, j - 1, id);
      GetStays(Play(s, script, i, j - 1), script[j - 1], id);
    }
  }

  class Writer {
    const me: nat
    const script: seq<Event>
    var pos: nat
    var sys: System
    var monitorKeys: seq<string>
    var cachedVersion: Option<nat>

    /** The closure's variables are this device's entry in the protocol state. */
    ghost predicate Mirrors()
      reads this
    {
      && pos <= |script| && IdsOk(sys)
      && me in sys.devices
      && sys.devices[me].keys == monitorKeys
      && sys.devices[me].cached == cachedVersion
    }

    constructor (me: nat, sys: System, script: seq<Event>)
      requires me in sys.devices && IdsOk(sys)
      ensures Mirrors() && this.me == me && this.sys == sys && this.script == script && pos == 0
    {
      this.me, this.sys, this.script, pos := me, sys, script, 0;
      monitorKeys, cachedVersion := sys.devices[me].keys, sys.devices[me].cached;
    }

    /** Plays the script up to the event that settles request `id`, exclusive. */
    method Await(id: nat) returns (e: Option<Event>)
      requires Mirrors() && sys.devices[me].pc != Idle && sys.devices[me].pc.id == id
      requires Script(me, script)
      modifies this`pos, this`sys, this`monitorKeys
      ensures Mirrors() && old(pos) <= pos && sys.devices[me].pc == old(sys.devices[me].pc)
      ensures e.Some? ==>
        && old(pos) < pos && e.value == script[pos - 1] && Settles(sys, me, id, e.value)
        && sys == Play(old(sys), script, old(pos), pos - 1)
      ensures e.None? ==> pos == |script| && sys == Play(old(sys), script, old(pos), |script|)
    {
      while pos < |script|
        invariant old(pos) <= pos && Mirrors()
        invariant sys.devices[me].pc == old(sys.devices[me].pc)
        invariant sys == Play(old(sys), script, old(pos), pos)
      {
        var next := script[pos];
        if Settles(sys, me, id, next) {
          pos := pos + 1;
          return Some(next);
        }
        Passive(sys, me, next);
        IdsStay(sys, next);
        sys := Step(sys, next);
        if next.NewChannel? && next.d == me {
          monitorKeys := Add(monitorKeys, next.key);
        }
        pos := pos + 1;
      }
      return None;
    }

    /** Awaits a put of this device and records its outcome; a conflict is left to the caller. */
    method AwaitPutReply(id: nat, version: nat) returns (r: Option<Outcome>)
      requires Mirrors() && Script(me, script) && id < sys.nextId
      requires sys.devices[me].pc == AwaitPut(id, version) || sys.devices[me].pc == AwaitRetry(id, version)
      modifies this`pos, this`sys, this`monitorKeys, this`cachedVersion
      ensures Mirrors() && old(pos) <= pos
      ensures r.None? ==> pos == |script| && sys == Play(old(sys), script, old(pos), |script|) && sys.devices[me].pc != Idle
      ensures r.Some? && r.value == Conflicted && old(sys.devices[me].pc).AwaitPut? ==>
        && old(pos) < pos && sys.devices[me].pc == AwaitPut(id, version)
        && OnConflict(sys) == Play(old(sys), script, old(pos), pos)
      ensures r.Some? && !(r.value == Conflicted && old(sys.devices[me].pc).AwaitPut?) ==>
        && sys == Play(old(sys), script, old(pos), pos)
        && sys.devices[me].pc == Idle && (sys.devices[me].lastOk <==> r.value == Written)
    {
      var e := Await(id);
      if e.None? {
        return None;
      }
      if e.value.Fail? {
        sys := Finish(sys, me, sys.devices[me], false);
        return Some(Broken);
      }
      if sys.replies[id] == Accepted {
        cachedVersion := Some(version + 1);
        sys := Finish(sys, me, sys.devices[me].(cached := cachedVersion), true);
        return Some(Written);
      }
      if sys.devices[me].pc.AwaitRetry? {
        sys := Finish(sys, me, sys.devices[me], false);
      }
      return Some(Conflicted);
    }

    /** The machine's reaction to a conflict: ask the server for its manifest. */
    function OnConflict(s: System): System
      requires me in s.devices
    {
      Update(s.(wire := s.wire[s.nextId := Get], nextId := s.nextId + 1), me, s.devices[me].(pc := AwaitGet(s.nextId)))
    }

    /** Take the server's version, add its keys to the local set, and send the merged list. */
    method Merge(serverObj: Stored)
      requires Mirrors() && sys.devices[me].pc.AwaitGet?
      modifies this`sys, this`monitorKeys, this`cachedVersion
      ensures Mirrors() && sys == OnFound(old(sys), me, Some(serverObj))
    {
      cachedVersion := Some(serverObj.version);
      var parsed := ParseMonitorManifest(serverObj.value);
      if parsed.Ok? {
        monitorKeys := AddAll(monitorKeys, parsed.value);
      }
      sys := Update(PostPut(sys, serverObj.version, monitorKeys), me,
                    sys.devices[me].(keys := monitorKeys, cached := cachedVersion,
                                     pc := AwaitRetry(sys.nextId, serverObj.version)));
    }

    /** After a conflict: re-fetch, merge the server's keys into the local set, put once more. */
    method MergeAndRetry() returns (finished: bool)
      requires Mirrors() && Script(me, script) && sys.devices[me].pc.AwaitGet?
      requires GetPending(sys, sys.devices[me].pc.id)
      modifies this`pos, this`sys, this`monitorKeys, this`cachedVersion
      ensures Mirrors() && old(pos) <= pos
      ensures sys == Play(old(sys), script, old(pos), pos)
      ensures finished <==> sys.devices[me].pc == Idle
      ensures !finished ==> pos == |script|
    {
      var id := sys.devices[me].pc.id;
      var e := Await(id);
      if e.None? {
        return false;
      }
      GetStaysAlong(old(sys), script, old(pos), pos - 1, id);
      if e.value.Fail? || sys.replies[id].obj.None? {
        sys := Finish(sys, me, sys.devices[me], false);
        return true;
      }
      var serverObj := sys.replies[id].obj.value;
      var retry := sys.nextId;
      Merge(serverObj);
      ghost var p := pos;
      var r := AwaitPutReply(retry, serverObj.version);
      PlayJoin(old(sys), script, old(pos), p, pos);
      assert pos == |script| ==> script[p..pos] == script[p..];
      finished := r.Some?;
    }

    /**
     * One queued manifest write. The host, the other devices and this closure's variables end as the
     * protocol says: module ManifestProtocol's theorems are about this method.
     */
    method WriteManifest() returns (finished: bool)
      requires Mirrors() && Script(me, script)
      requires sys.devices[me].pc == Idle && sys.devices[me].queued > 0
      modifies this`pos, this`sys, this`monitorKeys, this`cachedVersion
      ensures Mirrors() && old(pos) <= pos
      ensures sys == Play(OnBegin(old(sys), me), script, old(pos), pos)
      ensures finished <==> sys.devices[me].pc == Idle
      ensures !finished ==> pos == |script|
    {
      var version := GetOr(cachedVersion, 0);
      var id := sys.nextId;
      sys := Update(PostPut(sys, version, monitorKeys), me,
                    sys.devices[me].(queued := sys.devices[me].queued - 1, pc := AwaitPut(id, version)));
      var r := AwaitPutReply(id, version);
      if r.None? {
        return false;
      }
      if r.value != Conflicted {
        return true;
      }
      ghost var p := pos;
      sys := OnConflict(sys);
      finished := MergeAndRetry();
      PlayJoin(OnBegin(old(sys), me), script, old(pos), p, pos);
    }
  }

  datatype Outcome = Written | Conflicted | Broken
}
