/** What holds of the published view: it is exact, and resolution agrees with the registry. */
module RouterLaws {
  import opened Basics
  import opened Json
  import opened Registry
  import opened Sorting
  import opened Router

  /** The registry's records, each once, in any order. */
  ghost predicate IsSnapshot(snapshot: seq<SessionRecord>, r: Reg) {
    && (forall i, j :: 0 <= i < j < |snapshot| ==> snapshot[i].sessionId != snapshot[j].sessionId)
    && (forall i :: 0 <= i < |snapshot| ==>
        snapshot[i].sessionId in r.sessions && r.sessions[snapshot[i].sessionId] == snapshot[i])
    && (forall uid :: uid in r.sessions ==> exists i :: 0 <= i < |snapshot| && snapshot[i].sessionId == uid)
  }

  /** How many public descriptors of `name` a list of tools holds. */
  function Declared(tools: seq<ToolDescriptor>, name: string): nat {
    if tools == [] then 0
    else
      var tool := tools[|tools| - 1];
      Declared(tools[..|tools| - 1], name) + if tool.name == name && tool.visibility.Public? then 1 else 0
  }

  /** How many public descriptors of `name` the session publishes: none unless it is active. */
  function PublishedCount(r: Reg, uid: string, name: string): nat {
    if uid in r.sessions && r.sessions[uid].state.Active? then Declared(r.sessions[uid].tools, name) else 0
  }

  function Count(pubs: seq<Publication>, name: string, uid: string): nat {
    if pubs == [] then 0
    else
      var p := pubs[|pubs| - 1];
      Count(pubs[..|pubs| - 1], name, uid) + if p.name == name && p.session == uid then 1 else 0
  }

  lemma CountSnoc(pubs: seq<Publication>, p: Publication, name: string, uid: string)
    ensures Count(pubs + [p], name, uid) == Count(pubs, name, uid) + if p.name == name && p.session == uid then 1 else 0
  {
    assert (pubs + [p])[..|pubs|] == pubs;
  }

  lemma {:induction false} CountConcat(a: seq<Publication>, b: seq<Publication>, name: string, uid: string)
    ensures Count(a + b, name, uid) == Count(a, name, uid) + Count(b, name, uid)
  {
    if b == [] {
      assert a + b == a;
    } else {
      assert (a + b)[..|a + b| - 1] == a + b[..|b| - 1];
      CountConcat(a, b[..|b| - 1], name, uid);
    }
  }

  lemma {:induction false} CountOfRecord(rec: SessionRecord, tools: seq<ToolDescriptor>, hash: Digest, name: string,
      uid: string)
    ensures Count(PublishedBy(rec, tools, hash), name, uid) == if rec.sessionId == uid then Declared(tools, name) else 0
  {
    if tools != [] {
      var init, tool := tools[..|tools| - 1], tools[|tools| - 1];
      CountOfRecord(rec, init, hash, name, uid);
      var before := PublishedBy(rec, init, hash);
      if tool.visibility.Public? {
        CountSnoc(before, Publish(rec, tool, hash), name, uid);
      } else {
        assert PublishedBy(rec, tools, hash) == before;
      }
    }
  }

  lemma {:induction false} CountOfSnapshot(snapshot: seq<SessionRecord>, hash: Digest, name: string, uid: string)
    requires forall i, j :: 0 <= i < j < |snapshot| ==> snapshot[i].sessionId != snapshot[j].sessionId
    ensures (forall i :: 0 <= i < |snapshot| ==> snapshot[i].sessionId != uid)
        ==> Count(Publications(snapshot, hash), name, uid) == 0
    ensures forall i :: 0 <= i < |snapshot| && snapshot[i].sessionId == uid ==>
              Count(Publications(snapshot, hash), name, uid) == if snapshot[i].state.Active?
                  then Declared(snapshot[i].tools, name) else 0
  {
    if snapshot != [] {
      var init, rec := snapshot[..|snapshot| - 1], snapshot[|snapshot| - 1];
      CountOfSnapshot(init, hash, name, uid);
      if rec.state.Active? {
        CountConcat(Publications(init, hash), PublishedBy(rec, rec.tools, hash), name, uid);
        CountOfRecord(rec, rec.tools, hash, name, uid);
      } else {
        assert Publications(init, hash) + [] == Publications(init, hash);
      }
    }
  }

  lemma SnapshotCount(snapshot: seq<SessionRecord>, r: Reg, hash: Digest, name: string, uid: string)
    requires IsSnapshot(snapshot, r)
    ensures Count(Publications(snapshot, hash), name, uid) == PublishedCount(r, uid, name)
  {
    CountOfSnapshot(snapshot, hash, name, uid);
    if uid in r.sessions { var i :| 0 <= i < |snapshot| && snapshot[i].sessionId == uid; }
  }

  lemma {:induction false} PickCount(pubs: seq<Publication>, name: string, hashes: set<string>, uid: string)
    requires Hashes(pubs, name) <= hashes
    ensures SessionBag(Pick(pubs, name, hashes))[uid] == Count(pubs, name, uid)
  {
    if pubs != [] {
      var init, p := pubs[..|pubs| - 1], pubs[|pubs| - 1];
      assert pubs == init + [p];
      NamesSnoc(init, p, name);
      PickCount(init, name, hashes, uid);
      PickSnoc(init, p, name, hashes);
      BucketSnoc(Pick(init, name, hashes), p);
    }
  }

  lemma {:induction false} CountPositive(pubs: seq<Publication>, name: string, uid: string)
    ensures Count(pubs, name, uid) > 0 <==> exists i ::
        0 <= i < |pubs| && pubs[i].name == name && pubs[i].session == uid
  {
    if pubs != [] {
      var init := pubs[..|pubs| - 1];
      CountPositive(init, name, uid);
      if i :| 0 <= i < |init| && init[i].name == name && init[i].session == uid { assert pubs[i] == init[i]; }
      if i :| 0 <= i < |pubs| && pubs[i].name == name && pubs[i].session == uid {
        if i < |init| { assert init[i] == pubs[i]; }
      }
    }
  }

  /** The candidates of a slot: one occurrence per public descriptor of an active session, sorted. */
  lemma CandidatesExact(snapshot: seq<SessionRecord>, r: Reg, hash: Digest, name: string)
    requires IsSnapshot(snapshot, r)
    ensures var ids := SlotOf(Publications(snapshot, hash), name, hash).sessionIds;
            SortedStrings(ids) && forall uid :: multiset(ids)[uid] == PublishedCount(r, uid, name)
  {
    var pubs := Publications(snapshot, hash);
    var ids := Candidates(Named(pubs, name));
    assert SlotOf(pubs, name, hash).sessionIds == ids;
    forall uid ensures multiset(ids)[uid] == PublishedCount(r, uid, name) {
      PickCount(pubs, name, Hashes(pubs, name), uid);
      SnapshotCount(snapshot, r, hash, name, uid);
    }
  }

  lemma NamePublished(snapshot: seq<SessionRecord>, r: Reg, hash: Digest, name: string)
    requires IsSnapshot(snapshot, r)
    ensures name in Names(Publications(snapshot, hash)) <==> exists uid :: PublishedCount(r, uid, name) > 0
  {
    var pubs := Publications(snapshot, hash);
    if name in Names(pubs) {
      var i :| 0 <= i < |pubs| && pubs[i].name == name;
      CountPositive(pubs, name, pubs[i].session);
      SnapshotCount(snapshot, r, hash, name, pubs[i].session);
    }
    if uid :| PublishedCount(r, uid, name) > 0 {
      SnapshotCount(snapshot, r, hash, name, uid);
      CountPositive(pubs, name, uid);
    }
  }

  ghost predicate HasSlot(view: seq<ProxySlot>, name: string) {
    exists i :: 0 <= i < |view| && view[i].publishedName == name
  }

  lemma ViewNames(pubs: seq<Publication>, hash: Digest)
    ensures var view, names := ViewOf(pubs, hash), Sorted(Names(pubs));
            |view| == |names| && forall i :: 0 <= i < |names| ==>
                view[i] == SlotOf(pubs, names[i], hash) && view[i].publishedName == names[i]
  {
  }

  /** The published view is exact: one slot for each name that an active session publishes publicly, in order of names;
      and each slot's candidates are those sessions, once per public descriptor. */
  lemma ViewExact(snapshot: seq<SessionRecord>, r: Reg, hash: Digest)
    requires IsSnapshot(snapshot, r)
    ensures var view := ViewOf(Publications(snapshot, hash), hash);
            && (forall i, j :: 0 <= i < j < |view| ==> StrLt(view[i].publishedName, view[j].publishedName))
            && (forall name :: HasSlot(view, name) <==> exists uid :: PublishedCount(r, uid, name) > 0)
            && (forall i :: 0 <= i < |view| ==> SortedStrings(view[i].sessionIds))
            && (forall i, uid :: 0 <= i < |view| ==>
                multiset(view[i].sessionIds)[uid] == PublishedCount(r, uid, view[i].publishedName))
  {
    var pubs := Publications(snapshot, hash);
    var view, names := ViewOf(pubs, hash), Sorted(Names(pubs));
    ViewNames(pubs, hash);
    forall name ensures HasSlot(view, name) <==> exists uid :: PublishedCount(r, uid, name) > 0 {
      NamePublished(snapshot, r, hash, name);
      if name in Names(pubs) {
        var i :| 0 <= i < |names| && names[i] == name;
        assert view[i].publishedName == name;
      }
    }
    forall i | 0 <= i < |view| ensures SortedStrings(view[i].sessionIds) {
      CandidatesExact(snapshot, r, hash, names[i]);
    }
    forall i, uid | 0 <= i < |view|
      ensures multiset(view[i].sessionIds)[uid] == PublishedCount(r, uid, view[i].publishedName)
    {
      CandidatesExact(snapshot, r, hash, names[i]);
    }
  }

  lemma {:induction false} FindFirst(name: string, view: seq<ProxySlot>)
    ensures Find(name, view).None? <==> !HasSlot(view, name)
    ensures Find(name, view).Some? ==> Find(name, view).value in view && Find(name, view).value.publishedName == name
  {
    if view != [] {
      FindFirst(name, view[1..]);
      if view[0].publishedName != name && HasSlot(view, name) {
        var i :| 0 <= i < |view| && view[i].publishedName == name;
        assert view[1..][i - 1] == view[i];
      }
      if HasSlot(view[1..], name) {
        var i :| 0 <= i < |view[1..]| && view[1..][i].publishedName == name;
        assert view[i + 1] == view[1..][i];
      }
    }
  }

  lemma FindSlot(name: string, pubs: seq<Publication>, hash: Digest)
    ensures Find(name, ViewOf(pubs, hash)) == if name in Names(pubs) then Some(SlotOf(pubs, name, hash)) else None
  {
    var view, names := ViewOf(pubs, hash), Sorted(Names(pubs));
    ViewNames(pubs, hash);
    FindFirst(name, view);
    if name in Names(pubs) {
      var i :| 0 <= i < |names| && names[i] == name;
      assert view[i].publishedName == name;
    }
  }

  // ---- Resolution ------------------------------------------------------------------------------

  /** Exactly one public descriptor of `name` is published, and it is this session's. */
  ghost predicate SoleCandidate(r: Reg, uid: string, name: string) {
    PublishedCount(r, uid, name) == 1 && forall other :: other != uid ==> PublishedCount(r, other, name) == 0
  }

  lemma SoleIffOne(ids: seq<string>, uid: string)
    ensures ids == [uid] <==> multiset(ids)[uid] == 1 && forall other :: other != uid ==> multiset(ids)[other] == 0
  {
    if multiset(ids)[uid] == 1 && forall other :: other != uid ==> multiset(ids)[other] == 0 {
      assert multiset(ids) == multiset{uid};
      assert |ids| == |multiset(ids)| == 1;
      assert ids[0] in multiset(ids);
    }
  }

  /** Choosing from candidates that occur `count` times each. */
  lemma ChoiceExact(slot: ProxySlot, requested: Option<string>, uid: string, count: string -> nat)
    requires forall x :: multiset(slot.sessionIds)[x] == count(x)
    ensures Choose(slot, requested) == Ok(ResolvedCall(uid, slot.toolName)) <==>
              if requested.Some? then requested.value == uid && count(uid) > 0
              else count(uid) == 1 && forall other :: other != uid ==> count(other) == 0
    ensures Choose(slot, requested).Ok? ==> Choose(slot, requested).value.toolName == slot.toolName
    ensures Choose(slot, requested) != Err(NotProxyTool)
  {
    SoleIffOne(slot.sessionIds, uid);
    if requested.Some? { assert requested.value in slot.sessionIds <==> requested.value in multiset(slot.sessionIds); }
  }

  /** Resolution against the view of a registry answers from the registry alone: a named session exactly when it is
      active and publishes the tool; without one, the session with the only descriptor. */
  lemma ResolutionExact(snapshot: seq<SessionRecord>, r: Reg, hash: Digest, name: string, requested: Option<string>,
      uid: string)
    requires IsSnapshot(snapshot, r)
    ensures var got := Resolve(name, ViewOf(Publications(snapshot, hash), hash), requested);
            && (got == Ok(ResolvedCall(uid, name)) <==>
                  if requested.Some? then requested.value == uid && PublishedCount(r, uid, name) > 0
                      else SoleCandidate(r, uid, name))
            && (got.Ok? ==> got.value.toolName == name)
            && (got == Err(NotProxyTool) <==> forall other :: PublishedCount(r, other, name) == 0)
  {
    var pubs := Publications(snapshot, hash);
    FindSlot(name, pubs, hash);
    NamePublished(snapshot, r, hash, name);
    if name in Names(pubs) {
      CandidatesExact(snapshot, r, hash, name);
      ChoiceExact(SlotOf(pubs, name, hash), requested, uid, x => PublishedCount(r, x, name));
    }
  }

  lemma {:induction false} DeclaredIff(tools: seq<ToolDescriptor>, name: string)
    ensures Declared(tools, name) > 0 <==> exists t :: t in tools && t.name == name && t.visibility.Public?
  {
    if tools != [] {
      var init, tool := tools[..|tools| - 1], tools[|tools| - 1];
      assert tools == init + [tool];
      DeclaredIff(init, name);
      if t :| t in init && t.name == name && t.visibility.Public? { assert t in tools; }
    }
  }

  /** The check of an explicit target and the resolver agree on every session and tool, for every state of the
      registry. */
  lemma TargetCheckAgrees(snapshot: seq<SessionRecord>, r: Reg, hash: Digest, name: string, uid: string)
    requires IsSnapshot(snapshot, r)
    ensures ValidateTarget(r, uid, name).Ok? <==>
        Resolve(name, ViewOf(Publications(snapshot, hash), hash), Some(uid)).Ok?
  {
    ResolutionExact(snapshot, r, hash, name, Some(uid), uid);
    if uid in r.sessions { DeclaredIff(r.sessions[uid].tools, name); }
  }

  /** Why a call is refused, in terms of the registry: nobody publishes the tool; the named session does not, while
      another does; or none is named and several descriptors are published, which the answer lists by session,
      sorted. */
  lemma RefusalExact(snapshot: seq<SessionRecord>, r: Reg, hash: Digest, name: string, requested: Option<string>)
    requires IsSnapshot(snapshot, r)
    ensures var got := Resolve(name, ViewOf(Publications(snapshot, hash), hash), requested);
            got.Err? ==>
              match got.error
              case NotProxyTool => forall uid :: PublishedCount(r, uid, name) == 0
              case SessionToolMismatch(tool, uid) =>
                && tool == name && requested == Some(uid) && PublishedCount(r, uid, name) == 0
                && exists other :: PublishedCount(r, other, name) > 0
              case SessionRequired(tool, ids) =>
                && tool == name && requested.None? && SortedStrings(ids) && |ids| > 1
                && forall uid :: multiset(ids)[uid] == PublishedCount(r, uid, name)
  {
    var pubs := Publications(snapshot, hash);
    FindSlot(name, pubs, hash);
    NamePublished(snapshot, r, hash, name);
    if name in Names(pubs) {
      CandidatesExact(snapshot, r, hash, name);
      var ids := SlotOf(pubs, name, hash).sessionIds;
      var uid :| PublishedCount(r, uid, name) > 0;
      assert uid in multiset(ids);
      if requested.Some? { assert requested.value in ids <==> requested.value in multiset(ids); }
    }
  }

  /** Why an explicit target is refused: there is no such session, it is not active, or it does not publish the tool. */
  lemma TargetRefusalExact(r: Reg, uid: string, name: string)
    ensures var got := ValidateTarget(r, uid, name);
      && (got == Err(UnknownSession) <==> uid !in r.sessions)
      && (got == Err(SessionNotActive) <==> uid in r.sessions && r.sessions[uid].state == Disconnected)
      && (got == Err(ToolNotPublished) <==>
            uid in r.sessions && r.sessions[uid].state == Active && PublishedCount(r, uid, name) == 0)
  {
    if uid in r.sessions { DeclaredIff(r.sessions[uid].tools, name); }
  }
}
