/**
 * Whole sessions of one device: every channel's writes, the manifest, and a restore on an empty device.
 * Sessions without archiving; any pattern of failures, lost replies and late requests.
 */
module Backup {
  import opened Common
  import opened OrderedSet
  import opened MonitorKey
  import Manifest
  import MW = MonitorWrite
  import MS = MonitorSafety
  import MP = ManifestProtocol
  import Solo = ManifestSolo
  import R = Recovery

  /** `chans` holds one column per key of both monitor stores, `man` the manifest and its writer. */
  datatype Session = Session(chans: map<string, MW.Chan>, man: MP.System)

  datatype Event =
    | NewChannel(o: Outpoint, u: MW.Update)
    | UpdateChannel(o: Outpoint, u: MW.Update)
    | OnMonitor(key: string, m: MW.Event)
    | OnManifest(l: MP.Event)

  const Blank: MW.Chan := MW.Chan(true, MW.World(None, None, map[], map[], 0, []), None, [], 0, [], None)

  function ChanAt(s: Session, key: string): MW.Chan {
    if key in s.chans then s.chans[key] else Blank
  }

  function IssueOn(s: Session, key: string, u: MW.Update): Session {
    s.(chans := s.chans[key := MW.Step(ChanAt(s, key), MW.Issue(u))])
  }

  /** `persist_new_channel`, `update_persisted_channel`, and whatever the promises and the network do next. */
  function Step(s: Session, e: Event): Session {
    match e
    case NewChannel(o, u) =>
      if !Wellformed(o) then s
      else
        IssueOn(s.(man := MP.Step(s.man, MP.NewChannel(Solo.ME, OutpointKey(o)))), OutpointKey(o), u)
    case UpdateChannel(o, u) =>
      if Wellformed(o) && OutpointKey(o) in s.chans then IssueOn(s, OutpointKey(o), u) else s
    case OnMonitor(key, m) =>
      if key in s.chans && !m.Issue? && !MS.IsForeign(m) then s.(chans := s.chans[key := MW.Step(s.chans[key], m)])
      else s
    case OnManifest(l) =>
      if Solo.IsMine(l) && !l.NewChannel? then s.(man := MP.Step(s.man, l)) else s
  }

  function Steps(s: Session, es: seq<Event>): Session {
    if es == [] then s else Step(Steps(s, es[..|es| - 1]), es[|es| - 1])
  }

  // ---------- What LDK last handed over ----------

  function Row(c: MW.Chan): Bytes {
    if c.world.idb.Some? then c.world.idb.value.value else []
  }

  /** The bytes a channel should have: the last update issued, or what the session began with. */
  function Latest(c: MW.Chan): Bytes {
    if c.issued == [] then Row(c) else c.issued[|c.issued| - 1].data
  }

  /** What the session holds for an outpoint's key. */
  function Kept(s: Session, o: Outpoint): Option<Bytes> {
    if OutpointKey(o) in s.chans then Some(Latest(s.chans[OutpointKey(o)])) else None
  }

  /** Read off the script alone: the last update LDK issued for this very outpoint, `base` if none. */
  function LastIssued(base: Option<Bytes>, es: seq<Event>, o: Outpoint): Option<Bytes> {
    if es == [] then base
    else
      var before := LastIssued(base, es[..|es| - 1], o);
      match es[|es| - 1]
      case NewChannel(o', u) => if o' == o then Some(u.data) else before
      case UpdateChannel(o', u) => if o' == o && before.Some? then Some(u.data) else before
      case OnMonitor(_, _) => before
      case OnManifest(_) => before
  }

  // ---------- The invariant ----------

  function MyKeys(s: Session): seq<string>
    requires Solo.ME in s.man.devices
  {
    s.man.devices[Solo.ME].keys
  }

  ghost predicate ChanInv(c: MW.Chan) {
    && c.vss && MS.CalmInv(c) && MS.IdbSettled(c)
    && (c.issued == [] ==> MS.Settled(c, Row(c)))
  }

  ghost predicate KeysInv(s: Session) {
    && Solo.SoloInv(s.man) && Solo.OwnLists(s.man)
    && Distinct(MyKeys(s))
    && (forall k :: k in MyKeys(s) ==> IsMonitorKey(k))
    && (forall k :: k in MyKeys(s) <==> k in s.chans)
  }

  ghost predicate Inv(s: Session) {
    KeysInv(s) && forall k :: k in s.chans ==> ChanInv(s.chans[k])
  }

  lemma ChanStep(c: MW.Chan, m: MW.Event)
    requires c.vss && MS.CalmInv(c) && MS.IdbSettled(c) && !MS.IsForeign(m)
    ensures var d := MW.Step(c, m); d.vss && MS.CalmInv(d) && MS.IdbSettled(d) && c.issued <= d.issued
    ensures !m.Issue? ==> MW.Step(c, m).issued == c.issued
  {
    MS.CalmStep(c, m);
    MS.StepIdbSettled(c, m);
  }

  /** Before its first update a channel's column cannot move. */
  lemma SettledStays(c: MW.Chan, m: MW.Event)
    requires ChanInv(c) && c.issued == [] && !m.Issue? && !MS.IsForeign(m)
    ensures var d := MW.Step(c, m); MS.Settled(d, Row(d)) && Row(d) == Row(c)
  {
  }

  lemma BlankInv(u: MW.Update)
    ensures ChanInv(MW.Step(Blank, MW.Issue(u)))
  {
    assert MS.CalmInv(Blank);
    ChanStep(Blank, MW.Issue(u));
  }

  lemma ColumnStep(c: MW.Chan, m: MW.Event)
    requires ChanInv(c) && !MS.IsForeign(m)
    ensures ChanInv(MW.Step(c, m))
  {
    ChanStep(c, m);
    if !m.Issue? && c.issued == [] { SettledStays(c, m); }
  }

  lemma ReplaceColumn(s: Session, key: string, c: MW.Chan)
    requires Inv(s) && key in s.chans && ChanInv(c)
    ensures Inv(s.(chans := s.chans[key := c]))
  {
  }

  lemma AddColumn(s: Session, o: Outpoint, c: MW.Chan)
    requires Inv(s) && Wellformed(o) && ChanInv(c)
    ensures Inv(s.(man := MP.Step(s.man, MP.NewChannel(Solo.ME, OutpointKey(o))), chans := s.chans[OutpointKey(o) := c]))
  {
    var l := MP.NewChannel(Solo.ME, OutpointKey(o));
    Solo.SoloStep(s.man, l);
    Solo.OwnStep(s.man, l);
    KeyMatchesPattern(o);
  }

  lemma NewChannelKeeps(s: Session, o: Outpoint, u: MW.Update)
    requires Inv(s)
    ensures Inv(Step(s, NewChannel(o, u)))
  {
    if Wellformed(o) {
      var key := OutpointKey(o);
      if key in s.chans { ColumnStep(s.chans[key], MW.Issue(u)); } else { BlankInv(u); }
      AddColumn(s, o, MW.Step(ChanAt(s, key), MW.Issue(u)));
    }
  }

  lemma ManifestKeeps(s: Session, l: MP.Event)
    requires Inv(s) && Solo.IsMine(l) && !l.NewChannel?
    ensures Inv(s.(man := MP.Step(s.man, l)))
  {
    Solo.SoloStep(s.man, l);
    Solo.OwnStep(s.man, l);
  }

  lemma StepKeeps(s: Session, e: Event)
    requires Inv(s)
    ensures Inv(Step(s, e))
  {
    match e
    case NewChannel(o, u) => NewChannelKeeps(s, o, u);
    case UpdateChannel(o, u) =>
      var key := OutpointKey(o);
      if Wellformed(o) && key in s.chans {
        ColumnStep(s.chans[key], MW.Issue(u));
        ReplaceColumn(s, key, MW.Step(s.chans[key], MW.Issue(u)));
      }
    case OnMonitor(key, m) =>
      if key in s.chans && !m.Issue? && !MS.IsForeign(m) {
        ColumnStep(s.chans[key], m);
        ReplaceColumn(s, key, MW.Step(s.chans[key], m));
      }
    case OnManifest(l) =>
      if Solo.IsMine(l) && !l.NewChannel? { ManifestKeeps(s, l); }
  }

  lemma {:induction false} RunsKeep(s: Session, es: seq<Event>)
    requires Inv(s)
    ensures Inv(Steps(s, es))
  {
    if es != [] {
      RunsKeep(s, es[..|es| - 1]);
      StepKeeps(Steps(s, es[..|es| - 1]), es[|es| - 1]);
    }
  }

  // ---------- Each channel has its own latest update ----------

  lemma LatestOfOther(s: Session, key: string, m: MW.Event)
    requires Inv(s) && key in s.chans && !m.Issue? && !MS.IsForeign(m)
    ensures Latest(MW.Step(s.chans[key], m)) == Latest(s.chans[key])
  {
    ChanStep(s.chans[key], m);
    if s.chans[key].issued == [] { SettledStays(s.chans[key], m); }
  }

  /** Keys of different outpoints differ, so an update lands in its own channel's column. */
  lemma TracksIssue(s: Session, e: Event, o: Outpoint)
    requires Inv(s) && Wellformed(o) && (e.NewChannel? || e.UpdateChannel?)
    ensures var t, k := Step(s, e), OutpointKey(o);
      if e.o == o && (e.NewChannel? || k in s.chans) then k in t.chans && Latest(t.chans[k]) == e.u.data
      else (k in t.chans <==> k in s.chans) && (k in s.chans ==> t.chans[k] == s.chans[k])
  {
    if Wellformed(e.o) && OutpointKey(e.o) == OutpointKey(o) { KeyInjective(e.o, o); }
  }

  lemma TracksRest(s: Session, e: Event, key: string)
    requires Inv(s) && (e.OnMonitor? || e.OnManifest?)
    ensures var t := Step(s, e);
      (key in t.chans <==> key in s.chans) && (key in s.chans ==> Latest(t.chans[key]) == Latest(s.chans[key]))
  {
    if e.OnMonitor? && e.key in s.chans && !e.m.Issue? && !MS.IsForeign(e.m) { LatestOfOther(s, e.key, e.m); }
  }

  lemma {:induction false} RunsTrack(start: Session, es: seq<Event>, o: Outpoint)
    requires Inv(start) && Wellformed(o)
    ensures Kept(Steps(start, es), o) == LastIssued(Kept(start, o), es, o)
  {
    if es != [] {
      var front, e := es[..|es| - 1], es[|es| - 1];
      RunsTrack(start, front, o);
      RunsKeep(start, front);
      if e.NewChannel? || e.UpdateChannel? {
        TracksIssue(Steps(start, front), e, o);
      } else {
        TracksRest(Steps(start, front), e, OutpointKey(o));
      }
    }
  }

  // ---------- Backed up ----------

  /** Every monitor write is acknowledged and the last manifest write succeeded. */
  ghost predicate Done(s: Session)
    requires Solo.ME in s.man.devices
  {
    && (forall k :: k in s.chans ==> s.chans[k].run.None? && s.chans[k].acked == |s.chans[k].issued|)
    && var v := s.man.devices[Solo.ME];
    && v.pc == MP.Idle && v.queued == 0 && v.lastOk
  }

  lemma DoneSettled(s: Session)
    requires Inv(s) && Done(s)
    ensures forall k :: k in s.chans ==> MS.Settled(s.chans[k], Latest(s.chans[k])) && Row(s.chans[k]) == Latest(s.chans[k])
    ensures Solo.InStep(s.man)
  {
    forall k | k in s.chans
      ensures MS.Settled(s.chans[k], Latest(s.chans[k])) && Row(s.chans[k]) == Latest(s.chans[k])
    {
      assert ChanInv(s.chans[k]);
    }
  }

  // ---------- Restored ----------

  function Get(server: Option<MW.Stored>): R.GetReply<Bytes> {
    if server.Some? then R.Found(server.value.value, server.value.version) else R.Missing
  }

  /** A recovery in which every step works, against the servers as the session left them. */
  function Honest(s: Session, readable: Bytes -> bool, cm: Bytes, cmVersion: nat): R.Env {
    R.Env(
      if s.man.server.Some? then R.Found(s.man.server.value.value, s.man.server.value.version) else R.Missing,
      key => if key in s.chans then Get(s.chans[key].world.server) else R.Missing,
      readable, key => true, i => false,
      R.Found(cm, cmVersion), true, true, None, true, true)
  }

  /** IndexedDB's monitor store. */
  function RowsOf(s: Session): map<string, Bytes> {
    map k | k in s.chans :: Row(s.chans[k])
  }

  /** The persister's version cache, monitors only. */
  function VersionsOf(s: Session): map<string, nat> {
    map k | k in s.chans :: MW.Cached(s.chans[k])
  }

  ghost predicate BlobsReadable(s: Session, readable: Bytes -> bool) {
    forall k :: k in s.chans ==> readable(Latest(s.chans[k]))
  }

  /** The restored device is the lost one: its monitor rows, its key list, and every version the server's. */
  ghost predicate Recovers(s: Session, o: R.Outcome)
    requires Solo.ME in s.man.devices
  {
    && o.keys == MyKeys(s)
    && o.monitors == RowsOf(s)
    && s.man.server.Some? && R.MONITOR_MANIFEST_KEY in o.versions
    && o.versions[R.MONITOR_MANIFEST_KEY] == s.man.server.value.version
    && forall k :: k in s.chans ==>
         && k in o.versions && o.versions[k] == MW.Version(s.chans[k].world.server)
         && o.versions[k] == MW.Cached(s.chans[k])
  }

  lemma HonestRestorable(s: Session, readable: Bytes -> bool, cm: Bytes, cmVersion: nat)
    requires Inv(s) && Done(s) && BlobsReadable(s, readable)
    requires 1 <= |MyKeys(s)| <= 1_000 && |cm| >= 32
    ensures R.Restorable(Honest(s, readable, cm, cmVersion))
    ensures Manifest.Parse(s.man.server.value.value) == Ok(MyKeys(s))
  {
    DoneSettled(s);
    Manifest.ParsePayload(MyKeys(s));
    var env := Honest(s, readable, cm, cmVersion);
    forall j | 0 <= j < |MyKeys(s)| ensures R.Good(env, MyKeys(s)[j]) {
      assert MyKeys(s)[j] in s.chans;
    }
  }

  lemma AgreedVersions(s: Session)
    requires Inv(s) && Done(s)
    ensures forall k :: k in s.chans ==> MW.Version(s.chans[k].world.server) == MW.Cached(s.chans[k])
  {
    DoneSettled(s);
  }

  lemma HonestAnswers(s: Session, readable: Bytes -> bool, cm: Bytes, cmVersion: nat)
    requires Inv(s) && Done(s)
    ensures RowsOf(s).Keys == VersionsOf(s).Keys == Elements(MyKeys(s))
    ensures forall k :: k in RowsOf(s) ==>
      Honest(s, readable, cm, cmVersion).monitor(k) == R.Found(RowsOf(s)[k], VersionsOf(s)[k])
  {
    DoneSettled(s);
  }

  /**
   * Restoring undoes losing the device: in any state a session can reach (`RunsKeep`) with every write
   * acknowledged and the last manifest write accepted, recovery on an empty device rebuilds the same
   * monitors, the same key list and exactly the server's versions.
   */
  lemma RestoreIsIdentity(s: Session, readable: Bytes -> bool, cm: Bytes, cmVersion: nat)
    requires Inv(s) && Done(s) && BlobsReadable(s, readable)
    requires 1 <= |MyKeys(s)| <= 1_000 && |cm| >= 32
    ensures var o := R.Recover(Honest(s, readable, cm, cmVersion));
      Recovers(s, o) && o.cm == Some(cm) && o.cmVersion == cmVersion
  {
    var env := Honest(s, readable, cm, cmVersion);
    HonestRestorable(s, readable, cm, cmVersion);
    HonestAnswers(s, readable, cm, cmVersion);
    R.RestoresRows(env, RowsOf(s), VersionsOf(s));
    AgreedVersions(s);
  }

  // ---------- Sessions without end ----------

  /** The new device's view of one key: the old server and wire, the restored row, the recovered version. */
  function Reopened(c: MW.Chan, row: Bytes, version: nat): MW.Chan {
    var w := c.world;
    MW.Chan(true,
            w.(server := if w.server.Some? then Some(w.server.value.(origin := -1)) else None,
               idb := Some(MW.Row(row, -1)),
               wire := map id | id in w.wire :: Forget(w.wire[id]),
               taken := []),
            Some(version), [], 0, [], None)
  }

  function Forget(r: MW.Request): MW.Request {
    match r
    case Put(version, value, _) => MW.Put(version, value, -1)
    case Get => MW.Get
  }

  /** The session that a recovery with outcome `o` begins; what was on the wire stays on it. */
  function NextSession(s: Session, o: R.Outcome): Session {
    Session(
      map k | k in s.chans && k in o.monitors && k in o.versions :: Reopened(s.chans[k], o.monitors[k], o.versions[k]),
      s.man.(devices := map[Solo.ME := MP.Device(o.keys,
        if R.MONITOR_MANIFEST_KEY in o.versions then Some(o.versions[R.MONITOR_MANIFEST_KEY]) else None,
        0, MP.Idle, true)]))
  }

  lemma ReopenedInv(c: MW.Chan)
    requires ChanInv(c) && MS.Settled(c, Row(c))
    ensures var d := Reopened(c, Row(c), MW.Cached(c));
      ChanInv(d) && Latest(d) == Row(c)
  {
  }

  lemma NextSessionInv(s: Session, o: R.Outcome)
    requires Inv(s) && Done(s) && Recovers(s, o)
    ensures Inv(NextSession(s, o))
    ensures NextSession(s, o).chans.Keys == s.chans.Keys
    ensures forall k :: k in s.chans ==> Latest(NextSession(s, o).chans[k]) == Latest(s.chans[k])
  {
    DoneSettled(s);
    NextManifest(s, o);
    NextColumns(s, o);
  }

  lemma NextManifest(s: Session, o: R.Outcome)
    requires Inv(s) && Done(s) && Recovers(s, o) && Solo.InStep(s.man)
    ensures var m := NextSession(s, o).man;
      && Solo.SoloInv(m) && Solo.OwnLists(m) && m.devices[Solo.ME].keys == MyKeys(s)
  {
  }

  lemma NextColumn(s: Session, o: R.Outcome, k: string)
    requires k in s.chans && k in o.monitors && k in o.versions
    requires o.monitors[k] == Row(s.chans[k]) && o.versions[k] == MW.Cached(s.chans[k])
    requires ChanInv(s.chans[k]) && MS.Settled(s.chans[k], Row(s.chans[k]))
    ensures var t := NextSession(s, o);
      k in t.chans && ChanInv(t.chans[k]) && Latest(t.chans[k]) == Row(s.chans[k])
  {
    assert NextSession(s, o).chans[k] == Reopened(s.chans[k], o.monitors[k], o.versions[k]);
    ReopenedInv(s.chans[k]);
  }

  lemma NextColumns(s: Session, o: R.Outcome)
    requires Solo.ME in s.man.devices && Recovers(s, o)
    requires forall k :: k in s.chans ==> ChanInv(s.chans[k])
    requires forall k :: k in s.chans ==> MS.Settled(s.chans[k], Row(s.chans[k])) && Row(s.chans[k]) == Latest(s.chans[k])
    ensures var t := NextSession(s, o);
      && t.chans.Keys == s.chans.Keys
      && forall k :: k in s.chans ==> ChanInv(t.chans[k]) && Latest(t.chans[k]) == Latest(s.chans[k])
  {
    var t := NextSession(s, o);
    forall k | k in s.chans
      ensures k in t.chans && ChanInv(t.chans[k]) && Latest(t.chans[k]) == Latest(s.chans[k])
    {
      assert k in o.monitors;
      NextColumn(s, o, k);
    }
  }

  /** A wallet that has never run. */
  const Fresh := Session(map[], MP.System(None, map[Solo.ME := MP.Device([], None, 0, MP.Idle, true)], map[], map[], 0, [{}]))

  lemma FreshInv()
    ensures Inv(Fresh)
  {
  }

  /** One life of the wallet: a session, the loss of the device, and a recovery on an empty one. */
  datatype Life = Life(script: seq<Event>, cm: Bytes, cmVersion: nat)

  function Recovered(s: Session, life: Life, readable: Bytes -> bool): R.Outcome {
    R.Recover(Honest(s, readable, life.cm, life.cmVersion))
  }

  function Lives(lives: seq<Life>, readable: Bytes -> bool): Session {
    if lives == [] then Fresh
    else
      var life := lives[|lives| - 1];
      var s := Steps(Lives(lives[..|lives| - 1], readable), life.script);
      NextSession(s, Recovered(s, life, readable))
  }

  /** Each life ends backed up, with 1 to 1000 readable monitors and a usable ChannelManager. */
  ghost predicate EndsWell(s: Session, life: Life, readable: Bytes -> bool) {
    && Solo.ME in s.man.devices && Done(s) && BlobsReadable(s, readable)
    && 1 <= |MyKeys(s)| <= 1_000
    && |life.cm| >= 32
  }

  ghost predicate AllEndWell(lives: seq<Life>, readable: Bytes -> bool) {
    lives == []
    || (AllEndWell(lives[..|lives| - 1], readable)
        && EndsWell(Steps(Lives(lives[..|lives| - 1], readable), lives[|lives| - 1].script), lives[|lives| - 1], readable))
  }

  /** Everything LDK ever issued, over all lives. */
  function History(lives: seq<Life>): seq<Event> {
    if lives == [] then [] else History(lives[..|lives| - 1]) + lives[|lives| - 1].script
  }

  lemma {:induction false} LastIssuedJoin(base: Option<Bytes>, es: seq<Event>, fs: seq<Event>, o: Outpoint)
    ensures LastIssued(base, es + fs, o) == LastIssued(LastIssued(base, es, o), fs, o)
  {
    if fs == [] {
      assert es + fs == es;
    } else {
      assert (es + fs)[..|es + fs| - 1] == es + fs[..|fs| - 1];
      LastIssuedJoin(base, es, fs[..|fs| - 1], o);
    }
  }

  /** One life: the recovered monitors are the ones of the lost device, channel by channel. */
  lemma LifeKeeps(s: Session, life: Life, readable: Bytes -> bool, o: Outpoint)
    requires Inv(s) && EndsWell(Steps(s, life.script), life, readable) && Wellformed(o)
    ensures var t := Steps(s, life.script);
      var r := Recovered(t, life, readable);
      && Recovers(t, r)
      && Inv(NextSession(t, r))
      && Kept(NextSession(t, r), o) == LastIssued(Kept(s, o), life.script, o)
      && (OutpointKey(o) in r.monitors <==> LastIssued(Kept(s, o), life.script, o).Some?)
      && (OutpointKey(o) in r.monitors ==> LastIssued(Kept(s, o), life.script, o) == Some(r.monitors[OutpointKey(o)]))
  {
    var t := Steps(s, life.script);
    RunsKeep(s, life.script);
    RunsTrack(s, life.script, o);
    RestoreIsIdentity(t, readable, life.cm, life.cmVersion);
    DoneSettled(t);
    NextSessionInv(t, Recovered(t, life, readable));
  }

  /**
   * Backup then restore, as often as one likes: however many lives the wallet has, the monitors found
   * after the last recovery are, for every channel, the last update LDK ever issued for it.
   */
  lemma {:induction false} LivesKeepEveryChannel(lives: seq<Life>, readable: Bytes -> bool, o: Outpoint)
    requires AllEndWell(lives, readable) && Wellformed(o)
    ensures Inv(Lives(lives, readable))
    ensures Kept(Lives(lives, readable), o) == LastIssued(None, History(lives), o)
  {
    if lives == [] {
      FreshInv();
    } else {
      var front, life := lives[..|lives| - 1], lives[|lives| - 1];
      LivesKeepEveryChannel(front, readable, o);
      LifeKeeps(Lives(front, readable), life, readable, o);
      LastIssuedJoin(None, History(front), life.script, o);
    }
  }
}
