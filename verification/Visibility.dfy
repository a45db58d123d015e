/** Internal tools stay invisible: over every run, whatever an agent can reach was declared public by the session that
    offers it, and is not a configured internal name. */
module Visibility {
  import opened Basics
  import opened Json
  import opened Registry
  import opened Sorting
  import opened ToolsCache
  import opened Router
  import opened RouterLaws
  import opened Listing
  import opened Catalog

  // ---- What frames declare --------------------------------------------------------------------------

  /** The session a frame with tools comes from: `session.register` and `session.tools_changed`. */
  function FrameUid(step: Step): Option<string> {
    match step
    case Register(p, _, _, _) => Some(p.clientUid)
    case ToolsChanged(uid, _, _) => Some(uid)
    case _ => None
  }

  function FrameTools(step: Step): seq<ToolDescriptor> {
    match step
    case Register(p, _, _, _) => p.tools
    case ToolsChanged(_, tools, _) => tools
    case _ => []
  }

  /** Declared public, and not a name the gate keeps internal. */
  predicate MayShow(cfg: Config, t: ToolDescriptor) {
    t.visibility.Public? && (cfg.gate.Some? ==> t.name !in cfg.gate.value)
  }

  /** The session sent this descriptor, and it may be shown. */
  ghost predicate Sent(cfg: Config, steps: seq<Step>, uid: string, t: ToolDescriptor) {
    MayShow(cfg, t) && exists n :: 0 <= n < |steps| && FrameUid(steps[n]) == Some(uid) && t in FrameTools(steps[n])
  }

  ghost predicate SentName(cfg: Config, steps: seq<Step>, uid: string, name: string) {
    exists t: ToolDescriptor :: t.name == name && Sent(cfg, steps, uid, t)
  }

  lemma {:induction false} PublicOnlyExact(tools: seq<ToolDescriptor>, t: ToolDescriptor)
    ensures t in PublicOnly(tools) <==> t in tools && t.visibility.Public?
  {
    if tools != [] {
      PublicOnlyExact(tools[..|tools| - 1], t);
      assert tools == tools[..|tools| - 1] + [tools[|tools| - 1]];
    }
  }

  /** The descriptors whose name is not in `internal`. */
  function Unlisted(tools: seq<ToolDescriptor>, internal: set<string>): seq<ToolDescriptor> {
    if tools == [] then []
    else
      var tool := tools[|tools| - 1];
      Unlisted(tools[..|tools| - 1], internal) + if tool.name in internal then [] else [tool]
  }

  /** Normalising, seen from outside: what stays public is what was declared public under other names than the
      configured ones, untouched and in order. */
  lemma {:induction false} NormalizedSurvivors(tools: seq<ToolDescriptor>, internal: set<string>)
    ensures PublicOnly(Normalized(tools, internal)) == Unlisted(PublicOnly(tools), internal)
  {
    if tools != [] {
      var init, tool := tools[..|tools| - 1], tools[|tools| - 1];
      var all := Normalized(tools, internal);
      NormalizedSurvivors(init, internal);
      assert all[..|all| - 1] == Normalized(init, internal) && all[|all| - 1] == NormalizedTool(tool, internal);
      if tool.visibility.Public? {
        var shown := PublicOnly(init) + [tool];
        assert shown[..|shown| - 1] == PublicOnly(init);
      } else {
        assert PublicOnly(init) + [] == PublicOnly(init);
      }
    }
  }

  lemma DeclareKeeps(cfg: Config, tools: seq<ToolDescriptor>, t: ToolDescriptor)
    requires t in Declare(cfg, tools) && t.visibility.Public?
    ensures t in tools && MayShow(cfg, t)
  {
    if cfg.gate.Some? {
      var i :| 0 <= i < |tools| && Normalized(tools, cfg.gate.value)[i] == t;
      assert tools[i] == t;
    }
  }

  // ---- Where everything comes from ------------------------------------------------------------------

  /** Some frame of the session gave these tools. */
  ghost predicate FromFrame(cfg: Config, steps: seq<Step>, uid: string, tools: seq<ToolDescriptor>) {
    exists n :: 0 <= n < |steps| && FrameUid(steps[n]) == Some(uid) && tools == Declare(cfg, FrameTools(steps[n]))
  }

  /** Some frame of some session did, and the internal ones were left out. */
  ghost predicate FromSomeFrame(cfg: Config, steps: seq<Step>, tools: seq<ToolDescriptor>) {
    exists uid, full :: FromFrame(cfg, steps, uid, full) && tools == PublicOnly(full)
  }

  ghost predicate EntriesTraced(cfg: Config, steps: seq<Step>, m: map<Key, Entry>) {
    forall k :: k in m ==> FromSomeFrame(cfg, steps, m[k].tools)
  }

  ghost predicate RecordsTraced(cfg: Config, steps: seq<Step>, r: Reg) {
    forall uid :: uid in r.sessions ==> FromFrame(cfg, steps, uid, r.sessions[uid].tools)
  }

  /** Every record's tools come from a frame of its own session, every cached list from some frame. */
  ghost predicate Traced(cfg: Config, steps: seq<Step>, s: State) {
    RecordsTraced(cfg, steps, s.reg) && EntriesTraced(cfg, steps, s.cache.entries)
        && EntriesTraced(cfg, steps, s.cache.disk)
  }

  lemma FrameStays(cfg: Config, steps: seq<Step>, step: Step, uid: string, tools: seq<ToolDescriptor>)
    requires FromFrame(cfg, steps, uid, tools)
    ensures FromFrame(cfg, steps + [step], uid, tools)
  {
    var n :| 0 <= n < |steps| && FrameUid(steps[n]) == Some(uid) && tools == Declare(cfg, FrameTools(steps[n]));
    assert (steps + [step])[n] == steps[n];
  }

  lemma EntriesStay(cfg: Config, steps: seq<Step>, step: Step, m: map<Key, Entry>)
    requires EntriesTraced(cfg, steps, m)
    ensures EntriesTraced(cfg, steps + [step], m)
  {
    forall k | k in m ensures FromSomeFrame(cfg, steps + [step], m[k].tools) {
      var uid, full :| FromFrame(cfg, steps, uid, full) && m[k].tools == PublicOnly(full);
      FrameStays(cfg, steps, step, uid, full);
    }
  }

  lemma TracedStays(cfg: Config, steps: seq<Step>, step: Step, s: State)
    requires Traced(cfg, steps, s)
    ensures Traced(cfg, steps + [step], s)
  {
    forall uid | uid in s.reg.sessions ensures FromFrame(cfg, steps + [step], uid, s.reg.sessions[uid].tools) {
      FrameStays(cfg, steps, step, uid, s.reg.sessions[uid].tools);
    }
    EntriesStay(cfg, steps, step, s.cache.entries);
    EntriesStay(cfg, steps, step, s.cache.disk);
  }

  lemma UpsertTraced(cfg: Config, steps: seq<Step>, c: Cache, key: Key, tools: seq<ToolDescriptor>, w: Write)
    requires EntriesTraced(cfg, steps, c.entries) && EntriesTraced(cfg, steps, c.disk)
    requires FromSomeFrame(cfg, steps, PublicOnly(tools))
    ensures var d := CacheUpsert(cfg, c, key, tools, w);
      EntriesTraced(cfg, steps, d.entries) && EntriesTraced(cfg, steps, d.disk)
  {
    if cfg.cacheEnabled {
      var e := Evicted(c, w.evictAt, cfg.life, w.persists);
      assert EntriesTraced(cfg, steps, e.entries) && EntriesTraced(cfg, steps, e.disk);
      assert EntriesTraced(cfg, steps, e.entries[key := Entry(PublicOnly(tools), w.seenAt)]);
    }
  }

  lemma RegisterTraced(cfg: Config, steps: seq<Step>, s: State, p: RegisterParams, now: nat,
                       connection: Option<ConnectionId>, w: Write)
    requires Traced(cfg, steps, s) && FromFrame(cfg, steps, p.clientUid, p.tools)
    ensures Traced(cfg, steps, RegisterStep(cfg, s, p, now, connection, w))
  {
    UpsertTraced(cfg, steps, s.cache, (p.kind, ConfigIdOf(p)), p.tools, w);
    if !Collides(s.reg, p) {
      var t := Registered(s.reg, p, now, connection);
      forall uid | uid in t.sessions ensures FromFrame(cfg, steps, uid, t.sessions[uid].tools) {
        assert uid == p.clientUid || (uid in s.reg.sessions && t.sessions[uid] == s.reg.sessions[uid]);
      }
    }
  }

  lemma ToolsChangedTraced(cfg: Config, steps: seq<Step>, s: State, uid: string, tools: seq<ToolDescriptor>, w: Write)
    requires Traced(cfg, steps, s) && FromFrame(cfg, steps, uid, tools)
    ensures Traced(cfg, steps, ToolsChangedStep(cfg, s, uid, tools, w))
  {
    if uid in s.reg.sessions {
      UpsertTraced(cfg, steps, s.cache, (s.reg.sessions[uid].kind, s.reg.sessions[uid].configId), tools, w);
    }
  }

  /** Steps that only drop records, or change none of their tools. */
  lemma FewerToolsTraced(cfg: Config, steps: seq<Step>, r: Reg, t: Reg)
    requires RecordsTraced(cfg, steps, r)
    requires forall uid :: uid in t.sessions ==> uid in r.sessions && t.sessions[uid].tools == r.sessions[uid].tools
    ensures RecordsTraced(cfg, steps, t)
  {
  }

  lemma StepTraced(cfg: Config, steps: seq<Step>, s: State, step: Step)
    requires Traced(cfg, steps, s)
    requires FrameUid(step).Some? ==> FromFrame(cfg, steps, FrameUid(step).value, Declare(cfg, FrameTools(step)))
    ensures Traced(cfg, steps, Next(cfg, s, step))
  {
    match step {
      case Register(p, now, connection, w) =>
        RegisterTraced(cfg, steps, s, p.(tools := Declare(cfg, p.tools)), now, connection, w);
      case ToolsChanged(uid, tools, w) => ToolsChangedTraced(cfg, steps, s, uid, Declare(cfg, tools), w);
      case Disconnect(uid, generation, now) =>
        FewerToolsTraced(cfg, steps, s.reg, DisconnectedIfGeneration(s.reg, uid, generation, now));
      case Remove(uid, generation) => FewerToolsTraced(cfg, steps, s.reg, RemovedIfGeneration(s.reg, uid, generation));
      case Sweep(now, grace) => FewerToolsTraced(cfg, steps, s.reg, Swept(s.reg, now, grace));
      case Bump(uid, now) => FewerToolsTraced(cfg, steps, s.reg, CallBumped(s.reg, uid, now));
      case ResetCache(r, persists) =>
      case ReadList(at, persists) =>
      case Restart =>
    }
  }

  /** In every run from an empty cache, with a gate or without, through registrations, reconnects, tool changes,
      restarts and failed file writes. */
  lemma {:induction false} RunTraced(cfg: Config, steps: seq<Step>)
    ensures Traced(cfg, steps, Run(cfg, FRESH, steps))
  {
    if steps != [] {
      var init, step := steps[..|steps| - 1], steps[|steps| - 1];
      RunTraced(cfg, init);
      TracedStays(cfg, init, step, Run(cfg, FRESH, init));
      assert init + [step] == steps && steps[|init|] == step;
      StepTraced(cfg, steps, Run(cfg, FRESH, init), step);
    }
  }

  // ---- Every surface agents can reach ---------------------------------------------------------------

  /** The tools of a session as `session.list` reports them. */
  function Reported(rec: SessionRecord): seq<ToolDescriptor> {
    PublicOnly(rec.tools)
  }

  lemma FromFrameSent(cfg: Config, steps: seq<Step>, uid: string, tools: seq<ToolDescriptor>, t: ToolDescriptor)
    requires FromFrame(cfg, steps, uid, tools) && t in tools && t.visibility.Public?
    ensures Sent(cfg, steps, uid, t)
  {
    var n :| 0 <= n < |steps| && FrameUid(steps[n]) == Some(uid) && tools == Declare(cfg, FrameTools(steps[n]));
    DeclareKeeps(cfg, FrameTools(steps[n]), t);
  }

  /** Whoever publishes a name sent a frame that declares it public. */
  lemma PublishedWasSent(cfg: Config, steps: seq<Step>, uid: string, name: string)
    requires PublishedCount(Run(cfg, FRESH, steps).reg, uid, name) > 0
    ensures SentName(cfg, steps, uid, name)
  {
    var s := Run(cfg, FRESH, steps);
    RunTraced(cfg, steps);
    DeclaredIff(s.reg.sessions[uid].tools, name);
    var t :| t in s.reg.sessions[uid].tools && t.name == name && t.visibility.Public?;
    FromFrameSent(cfg, steps, uid, s.reg.sessions[uid].tools, t);
  }

  /** The live surfaces: a candidate of a slot, a resolved session, a session that passes the check of an explicit
      target and a session that reports a tool each sent that tool themselves, as public, under a name that is not
      configured internal. */
  lemma LiveToolsWereSent(cfg: Config, steps: seq<Step>, hash: Digest, snapshot: seq<SessionRecord>,
      name: string, requested: Option<string>, uid: string)
    requires IsSnapshot(snapshot, Run(cfg, FRESH, steps).reg)
    ensures var s, view := Run(cfg, FRESH, steps), ViewOf(Publications(snapshot, hash), hash);
      && (forall i :: 0 <= i < |view| && uid in view[i].sessionIds ==> SentName(cfg, steps, uid, view[i].publishedName))
      && (Resolve(name, view, requested).Ok? ==> SentName(cfg, steps, Resolve(name, view, requested).value.sessionId,
          name))
      && (ValidateTarget(s.reg, uid, name).Ok? ==> SentName(cfg, steps, uid, name))
      && (uid in s.reg.sessions ==> forall t :: t in Reported(s.reg.sessions[uid]) ==> Sent(cfg, steps, uid, t))
  {
    var s, view := Run(cfg, FRESH, steps), ViewOf(Publications(snapshot, hash), hash);
    CandidatesWereSent(cfg, steps, hash, snapshot, uid);
    ResolvedWasSent(cfg, steps, hash, snapshot, name, requested);
    ResolvedWasSent(cfg, steps, hash, snapshot, name, Some(uid));
    TargetCheckAgrees(snapshot, s.reg, hash, name, uid);
    ResolutionExact(snapshot, s.reg, hash, name, Some(uid), uid);
    if uid in s.reg.sessions {
      RunTraced(cfg, steps);
      forall t | t in Reported(s.reg.sessions[uid]) ensures Sent(cfg, steps, uid, t) {
        PublicOnlyExact(s.reg.sessions[uid].tools, t);
        FromFrameSent(cfg, steps, uid, s.reg.sessions[uid].tools, t);
      }
    }
  }

  lemma CandidatesWereSent(cfg: Config, steps: seq<Step>, hash: Digest, snapshot: seq<SessionRecord>, uid: string)
    requires IsSnapshot(snapshot, Run(cfg, FRESH, steps).reg)
    ensures var view := ViewOf(Publications(snapshot, hash), hash);
      forall i :: 0 <= i < |view| && uid in view[i].sessionIds ==> SentName(cfg, steps, uid, view[i].publishedName)
  {
    var view := ViewOf(Publications(snapshot, hash), hash);
    forall i | 0 <= i < |view| && uid in view[i].sessionIds ensures SentName(cfg, steps, uid, view[i].publishedName) {
      CandidatePublishes(snapshot, Run(cfg, FRESH, steps).reg, hash, view[i], uid);
      PublishedWasSent(cfg, steps, uid, view[i].publishedName);
    }
  }

  lemma CandidatePublishes(snapshot: seq<SessionRecord>, r: Reg, hash: Digest, slot: ProxySlot, uid: string)
    requires IsSnapshot(snapshot, r) && slot in ViewOf(Publications(snapshot, hash), hash) && uid in slot.sessionIds
    ensures PublishedCount(r, uid, slot.publishedName) > 0
  {
    var view := ViewOf(Publications(snapshot, hash), hash);
    ViewExact(snapshot, r, hash);
    var i :| 0 <= i < |view| && view[i] == slot;
    assert uid in multiset(slot.sessionIds);
  }

  lemma ResolvedWasSent(cfg: Config, steps: seq<Step>, hash: Digest, snapshot: seq<SessionRecord>,
      name: string, requested: Option<string>)
    requires IsSnapshot(snapshot, Run(cfg, FRESH, steps).reg)
    ensures var got := Resolve(name, ViewOf(Publications(snapshot, hash), hash), requested);
      got.Ok? ==> SentName(cfg, steps, got.value.sessionId, name)
  {
    var s := Run(cfg, FRESH, steps);
    var got := Resolve(name, ViewOf(Publications(snapshot, hash), hash), requested);
    if got.Ok? {
      ResolutionExact(snapshot, s.reg, hash, name, requested, got.value.sessionId);
      PublishedWasSent(cfg, steps, got.value.sessionId, name);
    }
  }

  /** The cache and its file: every descriptor in them was sent by some session, as public. */
  lemma CachedToolsWereSent(cfg: Config, steps: seq<Step>, k: Key, t: ToolDescriptor)
    requires var c := Run(cfg, FRESH, steps).cache;
      (k in c.entries && t in c.entries[k].tools) || (k in c.disk && t in c.disk[k].tools)
    ensures exists uid :: Sent(cfg, steps, uid, t)
  {
    RunTraced(cfg, steps);
    var c := Run(cfg, FRESH, steps).cache;
    var tools := if k in c.entries && t in c.entries[k].tools then c.entries[k].tools else c.disk[k].tools;
    var uid, full :| FromFrame(cfg, steps, uid, full) && tools == PublicOnly(full);
    PublicOnlyExact(full, t);
    FromFrameSent(cfg, steps, uid, full, t);
  }

  lemma LiveNameHasSlot(view: seq<ProxySlot>, name: string)
    ensures name in ToolNames(ProxyTools(view)) ==> HasSlot(view, name)
  {
  }

  /** The list: every tool shown beside the server's own was sent by some session, as public, under a name that is not
      configured internal. */
  lemma ShownWasSent(cfg: Config, steps: seq<Step>, hash: Digest, server: seq<Tool>,
      snapshot: seq<SessionRecord>, entries: seq<CacheEntry>, name: string)
    requires ReadSaw(Run(cfg, FRESH, steps), snapshot, entries)
    requires name in ToolNames(Shown(server, ViewOf(Publications(snapshot, hash), hash), entries))
    ensures name in ToolNames(server) || exists uid :: SentName(cfg, steps, uid, name)
  {
    var s, view := Run(cfg, FRESH, steps), ViewOf(Publications(snapshot, hash), hash);
    ShownExact(server, view, entries);
    LiveNameHasSlot(view, name);
    ViewExact(snapshot, s.reg, hash);
    if HasSlot(view, name) {
      var uid :| PublishedCount(s.reg, uid, name) > 0;
      PublishedWasSent(cfg, steps, uid, name);
    } else if CachedPublic(entries, name) {
      var i, t :| 0 <= i < |entries| && t in entries[i].tools && t.visibility.Public? && t.name == name;
      CachedToolsWereSent(cfg, steps, KeyOf(entries[i]), t);
      var uid :| Sent(cfg, steps, uid, t);
      assert SentName(cfg, steps, uid, name);
    }
  }

  /** With the gate attached, over every such run, a configured internal name is in no slot of the view, resolves to no
      session, passes no check of an explicit target, is in no reported list, in no cache entry and in no entry of the
      file. */
  lemma InternalNamesInvisible(cfg: Config, steps: seq<Step>, name: string, hash: Digest, snapshot: seq<SessionRecord>,
      requested: Option<string>, uid: string, k: Key, t: ToolDescriptor)
    requires cfg.gate.Some? && name in cfg.gate.value && t.name == name
    requires IsSnapshot(snapshot, Run(cfg, FRESH, steps).reg)
    ensures var s, view := Run(cfg, FRESH, steps), ViewOf(Publications(snapshot, hash), hash);
      && !HasSlot(view, name) && Resolve(name, view, requested) == Err(NotProxyTool)
      && ValidateTarget(s.reg, uid, name).Err?
      && (uid in s.reg.sessions ==> t !in Reported(s.reg.sessions[uid]))
      && (k in s.cache.entries ==> t !in s.cache.entries[k].tools)
      && (k in s.cache.disk ==> t !in s.cache.disk[k].tools)
  {
    var s := Run(cfg, FRESH, steps);
    forall other ensures PublishedCount(s.reg, other, name) == 0 {
      if PublishedCount(s.reg, other, name) > 0 { PublishedWasSent(cfg, steps, other, name); }
    }
    ViewExact(snapshot, s.reg, hash);
    ResolutionExact(snapshot, s.reg, hash, name, requested, uid);
    LiveToolsWereSent(cfg, steps, hash, snapshot, name, requested, uid);
    if (k in s.cache.entries && t in s.cache.entries[k].tools) || (k in s.cache.disk && t in s.cache.disk[k].tools) {
      CachedToolsWereSent(cfg, steps, k, t);
    }
  }
}
