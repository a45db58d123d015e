/** The tools shown to agents: the server's own, the live view, and cached tools nobody publishes now. */
module Listing {
  import opened Basics
  import opened Json
  import opened Registry
  import opened Router
  import opened ToolsCache

  datatype Tool = Tool(name: string, description: string, schema: Json)

  /** `proxy_tools`, one slot. */
  function ProxyTool(slot: ProxySlot): Tool {
    Tool(slot.publishedName,
         if slot.description.Some? then slot.description.value
             else "ClientProxy tool from kinds=" + Join(slot.kinds, ","),
         Obj(FieldsOf(slot.inputSchema)))
  }

  function ProxyTools(view: seq<ProxySlot>): seq<Tool> {
    seq(|view|, i requires 0 <= i < |view| => ProxyTool(view[i]))
  }

  /** A cached public descriptor, with the entry it comes from. */
  datatype Offer = Offer(kind: string, configId: string, tool: ToolDescriptor)

  function CachedTool(o: Offer): Tool {
    Tool(o.tool.name,
         if o.tool.description.Some? then o.tool.description.value
         else "Cached ClientProxy tool (kind=" + o.kind + ", config_id=" + o.configId + ")",
         Selector(o.tool.inputSchema, [], false))
  }

  function OffersOf(e: CacheEntry, tools: seq<ToolDescriptor>): seq<Offer> {
    if tools == [] then []
    else
      var tool := tools[|tools| - 1];
      OffersOf(e, tools[..|tools| - 1]) + if tool.visibility.Public? then [Offer(e.kind, e.configId, tool)] else []
  }

  /** The public descriptors of the cache, in the order of the listing. */
  function Offers(entries: seq<CacheEntry>): seq<Offer> {
    if entries == [] then []
    else Offers(entries[..|entries| - 1]) + OffersOf(entries[|entries| - 1], entries[|entries| - 1].tools)
  }

  function OfferNames(offers: seq<Offer>): set<string> {
    set i | 0 <= i < |offers| :: offers[i].tool.name
  }

  /** The first offer of each name that is not taken. */
  function Firsts(offers: seq<Offer>, taken: set<string>): seq<Offer> {
    if offers == [] then []
    else
      var init, o := offers[..|offers| - 1], offers[|offers| - 1];
      Firsts(init, taken) + if o.tool.name in taken + OfferNames(init) then [] else [o]
  }

  function CachedTools(offers: seq<Offer>): seq<Tool> {
    seq(|offers|, i requires 0 <= i < |offers| => CachedTool(offers[i]))
  }

  function ToolNames(tools: seq<Tool>): set<string> {
    set i | 0 <= i < |tools| :: tools[i].name
  }

  /** What agents are shown. */
  function Shown(server: seq<Tool>, view: seq<ProxySlot>, entries: seq<CacheEntry>): seq<Tool> {
    var live := ProxyTools(view);
    server + live + CachedTools(Firsts(Offers(entries), ToolNames(server) + ToolNames(live)))
  }

  // ---- The loops ----------------------------------------------------------------------------------

  lemma OfferNamesSnoc(offers: seq<Offer>, o: Offer)
    ensures OfferNames(offers + [o]) == OfferNames(offers) + {o.tool.name}
  {
    var all := offers + [o];
    assert all[|offers|] == o;
    forall x | x in OfferNames(offers) ensures x in OfferNames(all) {
      var i :| 0 <= i < |offers| && offers[i].tool.name == x;
      assert all[i] == offers[i];
    }
  }

  lemma FirstsSnoc(offers: seq<Offer>, o: Offer, taken: set<string>)
    ensures Firsts(offers + [o], taken) == Firsts(offers, taken) + if o.tool.name in taken + OfferNames(offers) then []
        else [o]
  {
    assert (offers + [o])[..|offers|] == offers;
  }

  lemma CachedSnoc(offers: seq<Offer>, o: Offer)
    ensures CachedTools(offers + [o]) == CachedTools(offers) + [CachedTool(o)]
  {
  }

  /** Where the loops stand after some offers. */
  ghost predicate Added(seen: set<string>, out: seq<Tool>, offers: seq<Offer>, taken: set<string>) {
    seen == taken + OfferNames(offers) && out == CachedTools(Firsts(offers, taken))
  }

  method AddOffer(o: Offer, seen0: set<string>, out0: seq<Tool>, ghost offers: seq<Offer>, ghost taken: set<string>)
      returns (seen: set<string>, out: seq<Tool>)
    requires Added(seen0, out0, offers, taken)
    ensures Added(seen, out, offers + [o], taken)
  {
    FirstsSnoc(offers, o, taken);
    OfferNamesSnoc(offers, o);
    CachedSnoc(Firsts(offers, taken), o);
    assert Firsts(offers, taken) + [] == Firsts(offers, taken);
    seen, out := seen0, out0;
    if o.tool.name !in seen {
      seen := seen + {o.tool.name};
      out := out + [CachedTool(o)];
    }
  }

  lemma OffersOfSnoc(e: CacheEntry, j: nat, before: seq<Offer>)
    requires j < |e.tools|
    ensures e.tools[j].visibility.Public? ==>
      before + OffersOf(e, e.tools[..j + 1]) == before + OffersOf(e, e.tools[..j])
          + [Offer(e.kind, e.configId, e.tools[j])]
    ensures !e.tools[j].visibility.Public? ==> OffersOf(e, e.tools[..j + 1]) == OffersOf(e, e.tools[..j])
  {
    assert e.tools[..j + 1][..j] == e.tools[..j];
  }

  /** The tools of one cache entry: whatever is public and not yet seen. */
  method AddEntry(e: CacheEntry, seen0: set<string>, out0: seq<Tool>, ghost before: seq<Offer>,
      ghost taken: set<string>)
      returns (seen: set<string>, out: seq<Tool>)
    requires Added(seen0, out0, before, taken)
    ensures Added(seen, out, before + OffersOf(e, e.tools), taken)
  {
    seen, out := seen0, out0;
    assert before + [] == before;
    var j := 0;
    while j < |e.tools|
      invariant 0 <= j <= |e.tools| && Added(seen, out, before + OffersOf(e, e.tools[..j]), taken)
    {
      OffersOfSnoc(e, j, before);
      if e.tools[j].visibility.Public? {
        seen, out := AddOffer(Offer(e.kind, e.configId, e.tools[j]), seen, out, before + OffersOf(e, e.tools[..j]),
            taken);
      }
      j := j + 1;
    }
    assert e.tools[..j] == e.tools;
  }

  method AddCached(entries: seq<CacheEntry>, taken: set<string>) returns (out: seq<Tool>)
    ensures out == CachedTools(Firsts(Offers(entries), taken))
  {
    var seen := taken;
    out := [];
    var i := 0;
    while i < |entries|
      invariant 0 <= i <= |entries| && Added(seen, out, Offers(entries[..i]), taken)
    {
      assert entries[..i + 1][..i] == entries[..i];
      seen, out := AddEntry(entries[i], seen, out, Offers(entries[..i]), taken);
      i := i + 1;
    }
    assert entries[..i] == entries;
  }

  /** `list_all_tools_inner`, after the view was built and the cache listed. */
  method ListAllTools(server: seq<Tool>, view: seq<ProxySlot>, entries: seq<CacheEntry>) returns (tools: seq<Tool>)
    ensures tools == Shown(server, view, entries)
  {
    var live := ProxyTools(view);
    var cached := AddCached(entries, ToolNames(server) + ToolNames(live));
    tools := server + live + cached;
  }

  // ---- What is shown ------------------------------------------------------------------------------

  ghost predicate FirstOfEach(r: seq<Offer>, offers: seq<Offer>, taken: set<string>) {
    && (forall i :: 0 <= i < |r| ==> r[i].tool.name !in taken && r[i] in offers)
    && (forall i, j :: 0 <= i < j < |r| ==> r[i].tool.name != r[j].tool.name)
    && OfferNames(r) == OfferNames(offers) - taken
  }

  lemma {:induction false} FirstsExact(offers: seq<Offer>, taken: set<string>)
    ensures FirstOfEach(Firsts(offers, taken), offers, taken)
  {
    if offers != [] {
      var init, o := offers[..|offers| - 1], offers[|offers| - 1];
      FirstsExact(init, taken);
      FirstsStep(Firsts(init, taken), init, o, taken);
      assert offers == init + [o];
      assert Firsts(init, taken) + [] == Firsts(init, taken);
    }
  }

  lemma FirstsStep(r: seq<Offer>, offers: seq<Offer>, o: Offer, taken: set<string>)
    requires FirstOfEach(r, offers, taken)
    ensures o.tool.name in taken + OfferNames(offers) ==> FirstOfEach(r, offers + [o], taken)
    ensures o.tool.name !in taken + OfferNames(offers) ==> FirstOfEach(r + [o], offers + [o], taken)
  {
    OfferNamesSnoc(offers, o);
    OfferNamesSnoc(r, o);
    forall i | 0 <= i < |r| ensures r[i].tool.name in OfferNames(r) {}
  }

  ghost predicate CachedPublic(entries: seq<CacheEntry>, name: string) {
    exists i, t :: 0 <= i < |entries| && t in entries[i].tools && t.visibility.Public? && t.name == name
  }

  lemma {:induction false} InOffersOf(e: CacheEntry, tools: seq<ToolDescriptor>, o: Offer)
    ensures o in OffersOf(e, tools) <==>
        o.kind == e.kind && o.configId == e.configId && o.tool in tools && o.tool.visibility.Public?
  {
    if tools != [] {
      InOffersOf(e, tools[..|tools| - 1], o);
      assert tools == tools[..|tools| - 1] + [tools[|tools| - 1]];
    }
  }

  lemma {:induction false} InOffers(entries: seq<CacheEntry>, o: Offer)
    ensures o in Offers(entries) <==>
      exists i :: 0 <= i < |entries| && o.kind == entries[i].kind && o.configId == entries[i].configId
                  && o.tool in entries[i].tools && o.tool.visibility.Public?
  {
    if entries != [] {
      var init, e := entries[..|entries| - 1], entries[|entries| - 1];
      InOffers(init, o);
      InOffersOf(e, e.tools, o);
      if o in Offers(init) {
        var i :| 0 <= i < |init| && o.kind == init[i].kind && o.configId == init[i].configId && o.tool in init[i].tools;
        assert entries[i] == init[i];
      }
      if i :| 0 <= i < |entries| && o.kind == entries[i].kind && o.configId == entries[i].configId
              && o.tool in entries[i].tools && o.tool.visibility.Public?
      {
        if i < |init| { assert init[i] == entries[i]; }
      }
    }
  }

  lemma OfferedIff(entries: seq<CacheEntry>, name: string)
    ensures name in OfferNames(Offers(entries)) <==> CachedPublic(entries, name)
  {
    var offers := Offers(entries);
    if name in OfferNames(offers) {
      var i :| 0 <= i < |offers| && offers[i].tool.name == name;
      InOffers(entries, offers[i]);
    }
    if CachedPublic(entries, name) {
      var i, t :| 0 <= i < |entries| && t in entries[i].tools && t.visibility.Public? && t.name == name;
      InOffers(entries, Offer(entries[i].kind, entries[i].configId, t));
    }
  }

  lemma NamesOfCached(offers: seq<Offer>)
    ensures ToolNames(CachedTools(offers)) == OfferNames(offers)
  {
    var tools := CachedTools(offers);
    forall x | x in OfferNames(offers) ensures x in ToolNames(tools) {
      var i :| 0 <= i < |offers| && offers[i].tool.name == x;
      assert tools[i].name == x;
    }
  }

  lemma NamesConcat(a: seq<Tool>, b: seq<Tool>)
    ensures ToolNames(a + b) == ToolNames(a) + ToolNames(b)
  {
    forall x | x in ToolNames(b) ensures x in ToolNames(a + b) {
      var i :| 0 <= i < |b| && b[i].name == x;
      assert (a + b)[|a| + i] == b[i];
    }
    forall x | x in ToolNames(a) ensures x in ToolNames(a + b) {
      var i :| 0 <= i < |a| && a[i].name == x;
      assert (a + b)[i] == a[i];
    }
  }

  /** A name is shown exactly when the server, the live view or a public cached descriptor offers it; and the cached
      part repeats no name, neither its own nor a live one. */
  lemma ShownExact(server: seq<Tool>, view: seq<ProxySlot>, entries: seq<CacheEntry>)
    ensures var tools, taken := Shown(server, view, entries), ToolNames(server) + ToolNames(ProxyTools(view));
            && (forall name :: name in ToolNames(tools) <==> name in taken || CachedPublic(entries, name))
            && (forall i :: |server| + |view| <= i < |tools| ==> tools[i].name !in taken)
            && (forall i, j :: |server| + |view| <= i < j < |tools| ==> tools[i].name != tools[j].name)
  {
    var live := ProxyTools(view);
    var taken := ToolNames(server) + ToolNames(live);
    var firsts := Firsts(Offers(entries), taken);
    FirstsExact(Offers(entries), taken);
    NamesOfCached(firsts);
    NamesConcat(server, live);
    NamesConcat(server + live, CachedTools(firsts));
    forall name
      ensures name in ToolNames(Shown(server, view, entries)) <==> name in taken || CachedPublic(entries, name)
    {
      OfferedIff(entries, name);
    }
  }
}
