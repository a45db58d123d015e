/** The catalog of tools as the registry and the cache together keep it, over whole runs: no change goes unmarked. */
module Catalog {
  import opened Basics
  import opened Json
  import opened Registry
  import opened ToolsCache
  import opened Router
  import opened RouterLaws
  import opened RouterOrder
  import opened Listing

  /** The masking gate's internal names, if a gate is attached, and the cache's settings. */
  datatype Config = Config(gate: Option<set<string>>, cacheEnabled: bool, life: nat)

  // ---- Tools as sessions declare them -----------------------------------------------------------

  /** Internal by configuration or by declaration; nothing internal becomes public. */
  function NormalizedTool(tool: ToolDescriptor, internal: set<string>): ToolDescriptor {
    tool.(visibility := if tool.name in internal || tool.visibility.Internal? then Internal else Public)
  }

  function Normalized(tools: seq<ToolDescriptor>, internal: set<string>): seq<ToolDescriptor> {
    seq(|tools|, i requires 0 <= i < |tools| => NormalizedTool(tools[i], internal))
  }

  /** `normalize_tools`, in place. */
  method NormalizeTools(tools: array<ToolDescriptor>, internal: set<string>)
    modifies tools
    ensures tools[..] == Normalized(old(tools[..]), internal)
  {
    for i := 0 to tools.Length
      invariant forall k :: 0 <= k < i ==> tools[k] == NormalizedTool(old(tools[k]), internal)
      invariant forall k :: i <= k < tools.Length ==> tools[k] == old(tools[k])
    {
      tools[i] := NormalizedTool(tools[i], internal);
    }
  }

  /** What a frame's tools become before they reach the registry. */
  function Declare(cfg: Config, tools: seq<ToolDescriptor>): seq<ToolDescriptor> {
    if cfg.gate.Some? then Normalized(tools, cfg.gate.value) else tools
  }

  function PublicOnly(tools: seq<ToolDescriptor>): seq<ToolDescriptor> {
    if tools == [] then []
    else PublicOnly(tools[..|tools| - 1]) + if tools[|tools| - 1].visibility.Public? then [tools[|tools| - 1]] else []
  }

  // ---- The machine --------------------------------------------------------------------------------

  datatype State = State(reg: Reg, cache: Cache)

  const FRESH := State(EMPTY_REG, Cache(map[], map[], 0))

  /** The clock readings of a cache write, and whether its file write succeeds. */
  datatype Write = Write(evictAt: nat, seenAt: nat, persists: bool)

  datatype Step =
    | Register(params: RegisterParams, now: nat, connection: Option<ConnectionId>, write: Write)
    | ToolsChanged(uid: string, tools: seq<ToolDescriptor>, write: Write)
    | Disconnect(uid: string, generation: nat, now: nat)
    | Remove(uid: string, generation: nat)
    | Sweep(now: nat, grace: nat)
    | Bump(uid: string, now: nat)
    | ResetCache(reset: Reset, persists: bool)
    | ReadList(at: nat, persists: bool)
    | Restart

  /** `upsert_tools_cache`. */
  function CacheUpsert(cfg: Config, c: Cache, key: Key, tools: seq<ToolDescriptor>, w: Write): Cache {
    if cfg.cacheEnabled then Upserted(c, key, PublicOnly(tools), w.evictAt, w.seenAt, cfg.life, w.persists) else c
  }

  function RegisterStep(cfg: Config, s: State, p: RegisterParams, now: nat, connection: Option<ConnectionId>,
      w: Write): State {
    if Collides(s.reg, p) then s
    else State(Registered(s.reg, p, now, connection), CacheUpsert(cfg, s.cache, (p.kind, ConfigIdOf(p)), p.tools, w))
  }

  function ToolsChangedStep(cfg: Config, s: State, uid: string, tools: seq<ToolDescriptor>, w: Write): State {
    if uid in s.reg.sessions && s.reg.sessions[uid].tools != tools then
      State(ToolsUpdated(s.reg, uid, tools),
            CacheUpsert(cfg, s.cache, (s.reg.sessions[uid].kind, s.reg.sessions[uid].configId), tools, w))
    else s
  }

  function Next(cfg: Config, s: State, step: Step): State {
    match step
    case Register(p, now, connection, w) => RegisterStep(cfg, s, p.(tools := Declare(cfg, p.tools)), now, connection, w)
    case ToolsChanged(uid, tools, w) => ToolsChangedStep(cfg, s, uid, Declare(cfg, tools), w)
    case Disconnect(uid, generation, now) => s.(reg := DisconnectedIfGeneration(s.reg, uid, generation, now))
    case Remove(uid, generation) => s.(reg := RemovedIfGeneration(s.reg, uid, generation))
    case Sweep(now, grace) => s.(reg := Swept(s.reg, now, grace))
    case Bump(uid, now) => s.(reg := CallBumped(s.reg, uid, now))
    case ResetCache(r, persists) => if cfg.cacheEnabled then s.(cache := WasReset(s.cache, r, persists)) else s
    case ReadList(at, persists) => if cfg.cacheEnabled then s.(cache := Evicted(s.cache, at, cfg.life, persists)) else s
    case Restart => State(EMPTY_REG, if cfg.cacheEnabled then Cache(s.cache.disk, s.cache.disk, 0)
        else Cache(map[], s.cache.disk, 0))
  }

  function Run(cfg: Config, s: State, steps: seq<Step>): State {
    if steps == [] then s else Next(cfg, Run(cfg, s, steps[..|steps| - 1]), steps[|steps| - 1])
  }

  /** `tools_epoch`: the registry's own marks and those of the cache's hook. */
  function Epoch(s: State): nat {
    s.reg.epoch + s.cache.notified
  }

  // ---- No silent change -----------------------------------------------------------------------------

  /** What the list can see of the cache: tools by kind and configuration. */
  function CacheSide(m: map<Key, Entry>): map<Key, seq<ToolDescriptor>> {
    map k | k in m :: m[k].tools
  }

  /** The step raises the epoch or leaves everything the list can see. */
  ghost predicate Announced(s: State, t: State) {
    && Epoch(t) >= Epoch(s)
    && (Epoch(t) == Epoch(s) ==>
        LiveSide(t.reg) == LiveSide(s.reg) && CacheSide(t.cache.entries) == CacheSide(s.cache.entries))
  }

  lemma CacheAnnounces(cfg: Config, c: Cache, key: Key, tools: seq<ToolDescriptor>, w: Write)
    ensures var d := CacheUpsert(cfg, c, key, tools, w);
            d.notified >= c.notified && (d.notified == c.notified ==> CacheSide(d.entries) == CacheSide(c.entries))
  {
    if cfg.cacheEnabled {
      var e := Evicted(c, w.evictAt, cfg.life, w.persists);
      assert e.notified >= c.notified && (e.notified == c.notified ==> e == c);
    }
  }

  lemma StepAnnounced(cfg: Config, s: State, step: Step)
    requires !step.Restart?
    ensures Announced(s, Next(cfg, s, step))
  {
    match step {
      case Register(p, now, connection, w) =>
        var q := p.(tools := Declare(cfg, p.tools));
        CacheAnnounces(cfg, s.cache, (q.kind, ConfigIdOf(q)), q.tools, w);
      case ToolsChanged(uid, tools, w) =>
        if uid in s.reg.sessions {
          CacheAnnounces(cfg, s.cache, (s.reg.sessions[uid].kind, s.reg.sessions[uid].configId), Declare(cfg, tools),
              w);
        }
      case Bump(uid, now) => assert LiveSide(CallBumped(s.reg, uid, now)) == LiveSide(s.reg);
      case _ =>
    }
  }

  predicate OneLife(steps: seq<Step>) {
    forall i :: 0 <= i < |steps| ==> !steps[i].Restart?
  }

  lemma {:induction false} RunAnnounced(cfg: Config, s: State, steps: seq<Step>)
    requires OneLife(steps)
    ensures Announced(s, Run(cfg, s, steps))
  {
    if steps != [] {
      RunAnnounced(cfg, s, steps[..|steps| - 1]);
      StepAnnounced(cfg, Run(cfg, s, steps[..|steps| - 1]), steps[|steps| - 1]);
    }
  }

  lemma {:induction false} RunSplit(cfg: Config, s: State, a: seq<Step>, b: seq<Step>)
    ensures Run(cfg, s, a + b) == Run(cfg, Run(cfg, s, a), b)
  {
    if b == [] {
      assert a + b == a;
    } else {
      assert (a + b)[..|a + b| - 1] == a + b[..|b| - 1];
      RunSplit(cfg, s, a, b[..|b| - 1]);
    }
  }

  // ---- Lists from the same contents ------------------------------------------------------------------

  predicate SameEntries(a: seq<CacheEntry>, b: seq<CacheEntry>) {
    |a| == |b| && forall i :: 0 <= i < |a| ==> KeyOf(a[i]) == KeyOf(b[i]) && a[i].tools == b[i].tools
  }

  ghost predicate SameKeys(a: seq<CacheEntry>, b: seq<CacheEntry>) {
    (forall i :: 0 <= i < |a| ==> HasKey(b, KeyOf(a[i]))) && (forall i :: 0 <= i < |b| ==> HasKey(a, KeyOf(b[i])))
  }

  ghost predicate HasKey(a: seq<CacheEntry>, k: Key) {
    exists i :: 0 <= i < |a| && KeyOf(a[i]) == k
  }

  lemma {:induction false} SortedKeysUnique(a: seq<CacheEntry>, b: seq<CacheEntry>)
    requires SortedEntries(a) && SortedEntries(b) && SameKeys(a, b)
    ensures |a| == |b| && forall i :: 0 <= i < |a| ==> KeyOf(a[i]) == KeyOf(b[i])
  {
    assert a != [] ==> HasKey(b, KeyOf(a[0]));
    assert b != [] ==> HasKey(a, KeyOf(b[0]));
    if a != [] && b != [] {
      HeadsEqual(a, b);
      TailsSorted(a, b);
      SortedKeysUnique(a[1..], b[1..]);
      forall i | 0 <= i < |a| ensures KeyOf(a[i]) == KeyOf(b[i]) {
        if i > 0 { assert a[i] == a[1..][i - 1] && b[i] == b[1..][i - 1]; }
      }
    }
  }

  lemma TailsSorted(a: seq<CacheEntry>, b: seq<CacheEntry>)
    requires SortedEntries(a) && SortedEntries(b) && SameKeys(a, b) && a != [] && b != [] && KeyOf(a[0]) == KeyOf(b[0])
    ensures SortedEntries(a[1..]) && SortedEntries(b[1..]) && SameKeys(a[1..], b[1..])
  {
    TailsSame(a, b);
    TailsSame(b, a);
  }

  lemma HeadsEqual(a: seq<CacheEntry>, b: seq<CacheEntry>)
    requires SortedEntries(a) && SortedEntries(b) && SameKeys(a, b) && a != [] && b != []
    ensures KeyOf(a[0]) == KeyOf(b[0])
  {
    assert HasKey(b, KeyOf(a[0])) && HasKey(a, KeyOf(b[0]));
    var j :| 0 <= j < |b| && KeyOf(b[j]) == KeyOf(a[0]);
    var i :| 0 <= i < |a| && KeyOf(a[i]) == KeyOf(b[0]);
    KeyLtTotal(KeyOf(a[0]), KeyOf(b[0]));
  }

  lemma TailsSame(a: seq<CacheEntry>, b: seq<CacheEntry>)
    requires SortedEntries(a) && a != [] && b != [] && KeyOf(a[0]) == KeyOf(b[0])
    requires forall i :: 0 <= i < |a| ==> HasKey(b, KeyOf(a[i]))
    ensures forall i :: 0 <= i < |a[1..]| ==> HasKey(b[1..], KeyOf(a[1..][i]))
  {
    forall i | 0 <= i < |a[1..]| ensures HasKey(b[1..], KeyOf(a[1..][i])) {
      assert a[1..][i] == a[i + 1] && HasKey(b, KeyOf(a[i + 1]));
      var j :| 0 <= j < |b| && KeyOf(b[j]) == KeyOf(a[i + 1]);
      KeyLtTotal(KeyOf(a[0]), KeyOf(a[i + 1]));
      assert KeyOf(b[1..][j - 1]) == KeyOf(a[i + 1]);
    }
  }

  lemma ListingKeys(a: seq<CacheEntry>, m: map<Key, Entry>, k: Key)
    requires IsListing(a, m)
    ensures HasKey(a, k) <==> k in m
  {
    if k in m {
      var e := CacheEntry(k.0, k.1, m[k].tools, m[k].lastSeen);
      var i :| 0 <= i < |a| && a[i] == e;
      assert KeyOf(a[i]) == k;
    }
  }

  lemma ListingsAgree(a: seq<CacheEntry>, m: map<Key, Entry>, b: seq<CacheEntry>, n: map<Key, Entry>)
    requires IsListing(a, m) && IsListing(b, n) && CacheSide(m) == CacheSide(n)
    ensures SameEntries(a, b)
  {
    assert forall k :: k in m <==> k in CacheSide(m);
    assert forall k :: k in n <==> k in CacheSide(n);
    forall i | 0 <= i < |a| ensures HasKey(b, KeyOf(a[i])) { ListingKeys(b, n, KeyOf(a[i])); }
    forall i | 0 <= i < |b| ensures HasKey(a, KeyOf(b[i])) { ListingKeys(a, m, KeyOf(b[i])); }
    SortedKeysUnique(a, b);
    forall i | 0 <= i < |a| ensures a[i].tools == b[i].tools {
      assert CacheSide(m)[KeyOf(a[i])] == CacheSide(n)[KeyOf(b[i])];
    }
  }

  lemma {:induction false} OffersOfAgree(a: CacheEntry, b: CacheEntry, tools: seq<ToolDescriptor>)
    requires KeyOf(a) == KeyOf(b)
    ensures OffersOf(a, tools) == OffersOf(b, tools)
  {
    if tools != [] { OffersOfAgree(a, b, tools[..|tools| - 1]); }
  }

  lemma {:induction false} OffersAgree(a: seq<CacheEntry>, b: seq<CacheEntry>)
    requires SameEntries(a, b)
    ensures Offers(a) == Offers(b)
  {
    if a != [] {
      OffersAgree(a[..|a| - 1], b[..|b| - 1]);
      OffersOfAgree(a[|a| - 1], b[|b| - 1], a[|a| - 1].tools);
    }
  }

  /** Equal lists, but for descriptions of live tools and the order of keys in their schemas. */
  ghost predicate SameList(a: seq<Tool>, b: seq<Tool>) {
    |a| == |b| && forall i :: 0 <= i < |a| ==>
        a[i] == b[i] || (a[i].name == b[i].name && Same(a[i].schema, b[i].schema))
  }

  lemma SameViewSameNames(v: seq<ProxySlot>, w: seq<ProxySlot>)
    requires SameView(v, w)
    ensures ToolNames(ProxyTools(v)) == ToolNames(ProxyTools(w))
  {
    var a, b := ProxyTools(v), ProxyTools(w);
    forall i | 0 <= i < |a| ensures a[i].name == b[i].name { assert SameSlot(v[i], w[i]); }
    forall x | x in ToolNames(a) ensures x in ToolNames(b) {
      var i :| 0 <= i < |a| && a[i].name == x; assert b[i].name == x;
    }
    forall x | x in ToolNames(b) ensures x in ToolNames(a) {
      var i :| 0 <= i < |b| && b[i].name == x; assert a[i].name == x;
    }
  }

  lemma SameInputsSameList(server: seq<Tool>, v: seq<ProxySlot>, w: seq<ProxySlot>, a: seq<CacheEntry>,
      b: seq<CacheEntry>)
    requires SameView(v, w) && SameEntries(a, b) && forall i :: 0 <= i < |v| ==> v[i].inputSchema.Obj?
    ensures SameList(Shown(server, v, a), Shown(server, w, b))
  {
    OffersAgree(a, b);
    SameViewSameNames(v, w);
    var x, y := Shown(server, v, a), Shown(server, w, b);
    forall i | 0 <= i < |x| ensures x[i] == y[i] || (x[i].name == y[i].name && Same(x[i].schema, y[i].schema)) {
      if |server| <= i < |server| + |v| {
        var k := i - |server|;
        assert x[i] == ProxyTool(v[k]) && y[i] == ProxyTool(w[k]) && SameSlot(v[k], w[k]);
      }
    }
  }

  lemma ViewObjects(pubs: seq<Publication>, hash: Digest)
    ensures forall i :: 0 <= i < |ViewOf(pubs, hash)| ==> ViewOf(pubs, hash)[i].inputSchema.Obj?
  {
  }

  /** What one read returned: the state after its eviction, the snapshot and the listing it used. */
  ghost predicate ReadSaw(s: State, snapshot: seq<SessionRecord>, entries: seq<CacheEntry>) {
    IsSnapshot(snapshot, s.reg) && IsListing(entries, s.cache.entries)
  }

  /** What the list can see of registry and cache determines it. */
  lemma SameSidesSameList(t: State, u: State, hash: Digest, server: seq<Tool>, snapshot1: seq<SessionRecord>,
      entries1: seq<CacheEntry>, snapshot2: seq<SessionRecord>, entries2: seq<CacheEntry>)
    requires Injective(hash) && SchemasWellFormed(t.reg) && ReadSaw(t, snapshot1, entries1)
        && ReadSaw(u, snapshot2, entries2)
    requires LiveSide(t.reg) == LiveSide(u.reg) && CacheSide(t.cache.entries) == CacheSide(u.cache.entries)
    ensures SameList(Shown(server, ViewOf(Publications(snapshot1, hash), hash), entries1),
                     Shown(server, ViewOf(Publications(snapshot2, hash), hash), entries2))
  {
    var v, w := ViewOf(Publications(snapshot1, hash), hash), ViewOf(Publications(snapshot2, hash), hash);
    ViewDependsOnLive(snapshot1, t.reg, snapshot2, u.reg, hash);
    ListingsAgree(entries1, t.cache.entries, entries2, u.cache.entries);
    ViewObjects(Publications(snapshot1, hash), hash);
    SameInputsSameList(server, v, w, entries1, entries2);
  }

  /** No silent change: in any run within one life of the process, two reads that leave the same epoch returned the same
      tools.  So whatever changes the list, a restart aside, raises the epoch. */
  lemma NoSilentChange(cfg: Config, s: State, before: seq<Step>, between: seq<Step>, hash: Digest, server: seq<Tool>,
      snapshot1: seq<SessionRecord>, entries1: seq<CacheEntry>, snapshot2: seq<SessionRecord>,
          entries2: seq<CacheEntry>)
    requires OneLife(before + between) && Injective(hash)
    requires var t := Run(cfg, s, before); SchemasWellFormed(t.reg) && ReadSaw(t, snapshot1, entries1)
    requires ReadSaw(Run(cfg, s, before + between), snapshot2, entries2)
    requires Epoch(Run(cfg, s, before)) == Epoch(Run(cfg, s, before + between))
    ensures SameList(Shown(server, ViewOf(Publications(snapshot1, hash), hash), entries1),
                     Shown(server, ViewOf(Publications(snapshot2, hash), hash), entries2))
  {
    var t, u := Run(cfg, s, before), Run(cfg, s, before + between);
    RunSplit(cfg, s, before, between);
    assert OneLife(between) by {
      forall i | 0 <= i < |between| ensures !between[i].Restart? {
        assert (before + between)[|before| + i] == between[i];
      }
    }
    RunAnnounced(cfg, t, between);
    SameSidesSameList(t, u, hash, server, snapshot1, entries1, snapshot2, entries2);
  }
}
