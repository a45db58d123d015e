/** What the list and the cache hold, tool by tool. */
module CatalogContents {
  import opened Basics
  import opened Json
  import opened Registry
  import opened ToolsCache
  import opened Router
  import opened RouterSchema
  import opened RouterOrder
  import opened Listing
  import Catalog

  // ---- The list ----------------------------------------------------------------------------------------------

  /** The tool a slot is shown as. */
  predicate ShownAs(tool: Tool, slot: ProxySlot) {
    && tool.name == slot.publishedName && (slot.inputSchema.Obj? ==> tool.schema == slot.inputSchema)
    && tool.description == if slot.description.Some? then slot.description.value
                           else "ClientProxy tool from kinds=" + Join(slot.kinds, ",")
  }

  /** The tool a cached descriptor is shown as: its own schema with an optional selector that lists nobody. */
  ghost predicate CachedAs(tool: Tool, e: CacheEntry, t: ToolDescriptor) {
    && tool.name == t.name && tool.schema.Obj?
    && tool.description == (if t.description.Some? then t.description.value
                            else "Cached ClientProxy tool (kind=" + e.kind + ", config_id=" + e.configId + ")")
    && var before, after := FieldsOf(t.inputSchema), tool.schema.fields;
       && (forall key :: key !in {"type", "properties"} ==> Get(after, key) == Get(before, key))
       && Get(after, "type") == (if Get(before, "type").Some? then Get(before, "type") else Some(Str("object")))
       && (forall name :: name != "session_id" ==>
             Get(FieldsOf(Router.At(after, "properties")), name)
                 == Get(FieldsOf(Router.At(before, "properties")), name))
       && Get(FieldsOf(Router.At(after, "properties")), "session_id")
            == Some(Obj([Field("type", Str("string")), Field("description", Str(SELECTOR_TEXT))]))
  }

  lemma CachedToolIs(e: CacheEntry, t: ToolDescriptor)
    ensures CachedAs(CachedTool(Offer(e.kind, e.configId, t)), e, t)
  {
    var after := Selector(t.inputSchema, [], false).fields;
    forall key | key !in {"type", "properties"} ensures Get(after, key) == Get(FieldsOf(t.inputSchema), key) {
      if key == "required" {
        SelectorKeys(t.inputSchema, [], false, key);
      } else {
        SelectorAddsOnlyItself(t.inputSchema, [], false, key, "", Null);
      }
    }
    SelectorAddsOnlyItself(t.inputSchema, [], false, "", "", Null);
    forall name | name != "session_id"
      ensures Get(FieldsOf(Router.At(after, "properties")), name)
           == Get(FieldsOf(Router.At(FieldsOf(t.inputSchema), "properties")), name)
    {
      SelectorAddsOnlyItself(t.inputSchema, [], false, "", name, Null);
    }
    assert SelectorProperty([]).fields == [Field("type", Str("string")), Field("description", Str(SELECTOR_TEXT))];
  }

  /** No entry before the j-th has a public descriptor of the name. */
  ghost predicate FirstWith(entries: seq<CacheEntry>, j: nat, name: string)
    requires j < |entries|
  {
    !CachedPublic(entries[..j], name)
  }

  /** An offer that is the first of its name comes from the first entry that has the name. */
  lemma {:induction false} FirstOfferFirstEntry(entries: seq<CacheEntry>, k: nat)
    requires var offers := Offers(entries);
      k < |offers| && forall m :: 0 <= m < k ==> offers[m].tool.name != offers[k].tool.name
    ensures var o := Offers(entries)[k];
      exists j :: 0 <= j < |entries| && o.kind == entries[j].kind && o.configId == entries[j].configId
        && o.tool in entries[j].tools && o.tool.visibility.Public? && FirstWith(entries, j, o.tool.name)
  {
    var n := |entries| - 1;
    var init, e := entries[..n], entries[n];
    var before, o := Offers(init), Offers(entries)[k];
    if k < |before| {
      assert forall m :: 0 <= m <= k ==> before[m] == Offers(entries)[m];
      FirstOfferFirstEntry(init, k);
      var j :| 0 <= j < |init| && o.kind == init[j].kind && o.configId == init[j].configId
        && o.tool in init[j].tools && o.tool.visibility.Public? && FirstWith(init, j, o.tool.name);
      assert entries[j] == init[j] && entries[..j] == init[..j];
      assert FirstWith(entries, j, o.tool.name);
    } else {
      InOffersOf(e, e.tools, o);
      assert o in OffersOf(e, e.tools) by { assert OffersOf(e, e.tools)[k - |before|] == o; }
      forall m | 0 <= m < |before| ensures before[m].tool.name != o.tool.name {
        assert Offers(entries)[m] == before[m];
      }
      OfferedIff(init, o.tool.name);
      assert FirstWith(entries, n, o.tool.name);
    }
  }

  /** What is taken is the first of its name. */
  lemma {:induction false} FirstsAreFirst(offers: seq<Offer>, taken: set<string>, o: Offer)
    requires o in Firsts(offers, taken)
    ensures exists k ::
      0 <= k < |offers| && offers[k] == o && forall m :: 0 <= m < k ==> offers[m].tool.name != o.tool.name
  {
    var n := |offers| - 1;
    var init := offers[..n];
    if o in Firsts(init, taken) {
      FirstsAreFirst(init, taken, o);
      var k :| 0 <= k < n && init[k] == o && forall m :: 0 <= m < k ==> init[m].tool.name != o.tool.name;
      assert offers[k] == o && forall m :: 0 <= m < k ==> offers[m] == init[m];
    } else {
      assert offers[n] == o;
      forall m | 0 <= m < n ensures offers[m].tool.name != o.tool.name { assert init[m].tool.name in OfferNames(init); }
    }
  }

  /** The cached part of the list: some descriptor of the first entry that has the name. */
  ghost predicate FromCache(tool: Tool, entries: seq<CacheEntry>) {
    exists j, t :: 0 <= j < |entries| && t in entries[j].tools && t.visibility.Public?
      && CachedAs(tool, entries[j], t) && FirstWith(entries, j, t.name)
  }

  lemma CachedComesFrom(entries: seq<CacheEntry>, taken: set<string>, o: Offer)
    requires o in Firsts(Offers(entries), taken)
    ensures FromCache(CachedTool(o), entries)
  {
    FirstsAreFirst(Offers(entries), taken, o);
    var k :| 0 <= k < |Offers(entries)| && Offers(entries)[k] == o
      && forall m :: 0 <= m < k ==> Offers(entries)[m].tool.name != o.tool.name;
    FirstOfferFirstEntry(entries, k);
    var j :| 0 <= j < |entries| && o.kind == entries[j].kind && o.configId == entries[j].configId
      && o.tool in entries[j].tools && o.tool.visibility.Public? && FirstWith(entries, j, o.tool.name);
    CachedToolIs(entries[j], o.tool);
  }

  /** The parts of the list, by position. */
  lemma PartsOfList(server: seq<Tool>, view: seq<ProxySlot>, entries: seq<CacheEntry>, i: nat)
    requires i < |Shown(server, view, entries)|
    ensures |server| + |view| <= |Shown(server, view, entries)|
    ensures var tool := Shown(server, view, entries)[i];
      && (i < |server| ==> tool == server[i])
      && (|server| <= i < |server| + |view| ==> tool == ProxyTool(view[i - |server|]))
      && (|server| + |view| <= i ==>
            exists o :: o in Firsts(Offers(entries), ToolNames(server) + ToolNames(ProxyTools(view)))
                && tool == CachedTool(o))
  {
    var live := ProxyTools(view);
    var firsts := Firsts(Offers(entries), ToolNames(server) + ToolNames(live));
    if |server| + |view| <= i { assert firsts[i - |server| - |view|] in firsts; }
  }

  /** Where a tool of the list comes from, by its position. */
  ghost predicate InPlace(tool: Tool, i: nat, server: seq<Tool>, view: seq<ProxySlot>, entries: seq<CacheEntry>) {
    if i < |server| then tool == server[i]
    else if i < |server| + |view| then ShownAs(tool, view[i - |server|])
    else FromCache(tool, entries)
  }

  /** The list, tool by tool: the server's own as they are; then one for each slot, with the slot's schema; then the
      cached ones, each from the first cache entry that has the name. */
  lemma ShownContents(server: seq<Tool>, view: seq<ProxySlot>, entries: seq<CacheEntry>)
    ensures var tools := Shown(server, view, entries);
      |server| + |view| <= |tools| && forall i :: 0 <= i < |tools| ==> InPlace(tools[i], i, server, view, entries)
  {
    var tools := Shown(server, view, entries);
    forall i | 0 <= i < |tools| ensures InPlace(tools[i], i, server, view, entries) {
      PartsOfList(server, view, entries, i);
      var taken := ToolNames(server) + ToolNames(ProxyTools(view));
      if |server| + |view| <= i {
        var o :| o in Firsts(Offers(entries), taken) && tools[i] == CachedTool(o);
        CachedComesFrom(entries, taken, o);
      }
    }
  }

  // ---- The cache ---------------------------------------------------------------------------------------------

  /** The frame's tools, as they are kept: under an attached gate a configured name is internal. */
  predicate KeptAs(cfg: Catalog.Config, sent: seq<ToolDescriptor>, kept: seq<ToolDescriptor>) {
    |kept| == |sent| && forall i :: 0 <= i < |sent| ==>
      && kept[i].(visibility := sent[i].visibility) == sent[i]
      && (kept[i].visibility.Public? <==>
            sent[i].visibility.Public? && (cfg.gate.None? || sent[i].name !in cfg.gate.value))
  }

  /** An accepted registration is in the registry and in the cache: the record has the frame's tools as they are kept;
      the cache has the public ones of them, as of now, under the kind and the configuration, which is the kind if none
      was given. A refused one changes nothing. */
  lemma RegisteredIsCached(cfg: Catalog.Config, s: Catalog.State, p: RegisterParams, now: nat,
      connection: Option<ConnectionId>, w: Catalog.Write)
    ensures var t := Catalog.Next(cfg, s, Catalog.Register(p, now, connection, w));
      if p.clientUid in s.reg.sessions && s.reg.sessions[p.clientUid].state.Active? then t == s
      else
        && p.clientUid in t.reg.sessions && KeptAs(cfg, p.tools, t.reg.sessions[p.clientUid].tools)
        && (cfg.cacheEnabled ==>
              var key := (p.kind, if p.configId.Some? then p.configId.value else p.kind);
              && key in t.cache.entries
              && t.cache.entries[key] == Entry(Catalog.PublicOnly(t.reg.sessions[p.clientUid].tools), w.seenAt))
        && (!cfg.cacheEnabled ==> t.cache == s.cache)
  {
  }

  /** A notification that changes a session's tools does the same, under the kind and the configuration of its record;
      one that does not, or comes from nobody, changes nothing. */
  lemma ChangedIsCached(cfg: Catalog.Config, s: Catalog.State, uid: string, tools: seq<ToolDescriptor>,
      w: Catalog.Write)
    ensures var t := Catalog.Next(cfg, s, Catalog.ToolsChanged(uid, tools, w));
      if uid in s.reg.sessions && !KeptAs(cfg, tools, s.reg.sessions[uid].tools) then
        && uid in t.reg.sessions && KeptAs(cfg, tools, t.reg.sessions[uid].tools)
        && t.reg.sessions[uid].(tools := s.reg.sessions[uid].tools) == s.reg.sessions[uid]
        && (cfg.cacheEnabled ==>
              var key := (s.reg.sessions[uid].kind, s.reg.sessions[uid].configId);
              && key in t.cache.entries
              && t.cache.entries[key] == Entry(Catalog.PublicOnly(t.reg.sessions[uid].tools), w.seenAt))
      else t == s
  {
    if uid in s.reg.sessions {
      var kept := s.reg.sessions[uid].tools;
      assert KeptAs(cfg, tools, kept) <==> kept == Catalog.Declare(cfg, tools);
    }
  }

  /** A reset drops the entries it names from the cache, and a read those that are too old; neither touches the
      registry, and without a cache neither does anything. */
  lemma ResetAndReadDrop(cfg: Catalog.Config, s: Catalog.State, configId: string, at: nat, persists: bool, key: Key)
    ensures var some := Catalog.Next(cfg, s, Catalog.ResetCache(ToolsCache.Config(configId), persists));
      var all := Catalog.Next(cfg, s, Catalog.ResetCache(Everything, persists));
      var read := Catalog.Next(cfg, s, Catalog.ReadList(at, persists));
      && some.reg == all.reg == read.reg == s.reg
      && (cfg.cacheEnabled ==>
            && (key in some.cache.entries <==> key in s.cache.entries && key.1 != configId)
            && key !in all.cache.entries
            && (key in read.cache.entries <==>
                  key in s.cache.entries && at <= s.cache.entries[key].lastSeen + cfg.life))
      && (!cfg.cacheEnabled ==> some == all == read == s)
  {
  }
}
