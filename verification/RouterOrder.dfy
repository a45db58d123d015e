/** The published view does not depend on the order of the snapshot. */
module RouterOrder {
  import opened Basics
  import opened Json
  import opened Registry
  import opened Sorting
  import opened Router
  import opened RouterLaws

  // ---- Editing values that mean the same --------------------------------------------------------

  ghost predicate SameAt(f: seq<Field>, g: seq<Field>, k: string) {
    var a, b := Get(f, k), Get(g, k);
    a.Some? == b.Some? && (a.Some? ==> Same(a.value, b.value))
  }

  /** Objects mean the same exactly when every key does. */
  lemma SameByKey(f: seq<Field>, g: seq<Field>)
    requires UniqueKeys(f) && UniqueKeys(g)
    ensures Same(Obj(f), Obj(g)) <==> forall k :: SameAt(f, g, k)
  {
    if Same(Obj(f), Obj(g)) {
      forall k ensures SameAt(f, g, k) {
        GetFinds(f, k);
        GetFinds(g, k);
      }
    }
    if forall k :: SameAt(f, g, k) {
      forall k ensures k in Keys(f) <==> k in Keys(g) {
        assert SameAt(f, g, k);
        GetFinds(f, k);
        GetFinds(g, k);
      }
      forall i, j | 0 <= i < |f| && 0 <= j < |g| && f[i].key == g[j].key ensures Same(f[i].value, g[j].value) {
        assert SameAt(f, g, f[i].key);
        GetAt(f, i);
        GetAt(g, j);
      }
    }
  }

  lemma SamePut(f: seq<Field>, g: seq<Field>, key: string, v: Json, w: Json)
    requires UniqueKeys(f) && UniqueKeys(g) && Same(Obj(f), Obj(g)) && Same(v, w)
    ensures Same(Obj(Put(f, key, v)), Obj(Put(g, key, w)))
  {
    PutKeys(f, key, v);
    PutKeys(g, key, w);
    SameByKey(f, g);
    forall k ensures SameAt(Put(f, key, v), Put(g, key, w), k) {
      assert SameAt(f, g, k);
      GetPut(f, key, v, k);
      GetPut(g, key, w, k);
    }
    SameByKey(Put(f, key, v), Put(g, key, w));
  }

  lemma WellFormedFields(f: seq<Field>, k: string)
    requires WellFormed(Obj(f))
    ensures WellFormed(At(f, k))
  {
    GetFinds(f, k);
  }

  lemma {:induction false} PutMember(f: seq<Field>, key: string, v: Json, x: Field)
    ensures x in Put(f, key, v) ==> x == Field(key, v) || x in f
  {
    if f != [] && f[0].key != key { PutMember(f[1..], key, v, x); }
  }

  lemma WellFormedPut(f: seq<Field>, key: string, v: Json)
    requires WellFormed(Obj(f)) && WellFormed(v)
    ensures WellFormed(Obj(Put(f, key, v)))
  {
    PutKeys(f, key, v);
    var r := Put(f, key, v);
    forall i | 0 <= i < |r| ensures WellFormed(r[i].value) {
      PutMember(f, key, v, r[i]);
    }
  }

  ghost predicate Alike(f: seq<Field>, g: seq<Field>) {
    WellFormed(Obj(f)) && WellFormed(Obj(g)) && Same(Obj(f), Obj(g))
  }

  ghost predicate AlikeValues(v: Json, w: Json) {
    WellFormed(v) && WellFormed(w) && Same(v, w)
  }

  lemma AlikeSelf(v: Json)
    requires WellFormed(v)
    ensures AlikeValues(v, v)
  {
    SameEquivalence(v, v, v);
  }

  lemma AlikePut(f: seq<Field>, g: seq<Field>, key: string, v: Json, w: Json)
    requires Alike(f, g) && AlikeValues(v, w)
    ensures Alike(Put(f, key, v), Put(g, key, w))
  {
    SamePut(f, g, key, v, w);
    WellFormedPut(f, key, v);
    WellFormedPut(g, key, w);
  }

  lemma AlikeAt(f: seq<Field>, g: seq<Field>, key: string)
    requires Alike(f, g)
    ensures AlikeValues(At(f, key), At(g, key)) && Get(f, key).None? == Get(g, key).None?
  {
    SameByKey(f, g);
    assert SameAt(f, g, key);
    WellFormedFields(f, key);
    WellFormedFields(g, key);
  }

  lemma AlikeFields(v: Json, w: Json)
    requires AlikeValues(v, w)
    ensures Alike(FieldsOf(v), FieldsOf(w))
  {
  }

  lemma SelectorPropertyWellFormed(ids: seq<string>)
    ensures WellFormed(SelectorProperty(ids))
  {
  }

  lemma AlikeType(f: seq<Field>, g: seq<Field>)
    requires Alike(f, g)
    ensures Alike(WithType(f), WithType(g))
  {
    AlikeAt(f, g, "type");
    AlikePut(f, g, "type", Str("object"), Str("object"));
  }

  lemma AlikeProperty(f: seq<Field>, g: seq<Field>, ids: seq<string>)
    requires Alike(f, g)
    ensures Alike(WithProperty(f, ids), WithProperty(g, ids))
  {
    AlikeAt(f, g, "properties");
    var v, w := At(f, "properties"), At(g, "properties");
    AlikeFields(v, w);
    SelectorPropertyWellFormed(ids);
    var property := SelectorProperty(ids);
    AlikeSelf(property);
    AlikePut(FieldsOf(v), FieldsOf(w), SESSION_ID_ARGUMENT, property, property);
    AlikePut(f, g, "properties", Obj(Put(FieldsOf(v), SESSION_ID_ARGUMENT, property)),
        Obj(Put(FieldsOf(w), SESSION_ID_ARGUMENT, property)));
  }

  lemma AlikeRequired(f: seq<Field>, g: seq<Field>)
    requires Alike(f, g)
    ensures Alike(WithRequired(f), WithRequired(g))
  {
    AlikeAt(f, g, "required");
    AlikeItems(At(f, "required"), At(g, "required"), Str(SESSION_ID_ARGUMENT));
    AlikePut(f, g, "required", Arr(RequiredItems(f)), Arr(RequiredItems(g)));
  }

  lemma AlikeItems(v: Json, w: Json, x: Json)
    requires AlikeValues(v, w) && x.Str?
    ensures AlikeValues(Arr(ItemsOf(v)), Arr(ItemsOf(w))) && (x in ItemsOf(v) <==> x in ItemsOf(w))
    ensures AlikeValues(Arr(ItemsOf(v) + [x]), Arr(ItemsOf(w) + [x]))
  {
    var xs, ys := ItemsOf(v), ItemsOf(w);
    assert forall i :: 0 <= i < |xs| ==> Same(xs[i], ys[i]);
    if x in xs { var i :| 0 <= i < |xs| && xs[i] == x; assert ys[i] == x; }
    if x in ys { var i :| 0 <= i < |ys| && ys[i] == x; assert Same(xs[i], ys[i]); assert xs[i] == x; }
    AppendAlike(xs, ys, x);
  }

  lemma AppendAlike(xs: seq<Json>, ys: seq<Json>, x: Json)
    requires AlikeValues(Arr(xs), Arr(ys)) && x.Str?
    ensures AlikeValues(Arr(xs + [x]), Arr(ys + [x]))
  {
    var a, b := xs + [x], ys + [x];
    forall i | 0 <= i < |a| ensures Same(a[i], b[i]) && WellFormed(a[i]) && WellFormed(b[i]) {
      if i < |xs| { assert a[i] == xs[i] && b[i] == ys[i]; }
    }
  }

  /** The selector of schemas that mean the same means the same. */
  lemma SelectorKeepsMeaning(a: Json, b: Json, ids: seq<string>, required: bool)
    requires WellFormed(a) && WellFormed(b) && Same(a, b)
    ensures WellFormed(Selector(a, ids, required)) && WellFormed(Selector(b, ids, required))
    ensures Same(Selector(a, ids, required), Selector(b, ids, required))
  {
    AlikeFields(a, b);
    var f, g := FieldsOf(a), FieldsOf(b);
    AlikeType(f, g);
    AlikeProperty(WithType(f), WithType(g), ids);
    if required { AlikeRequired(WithProperty(WithType(f), ids), WithProperty(WithType(g), ids)); }
  }

  // ---- Publications as a bag --------------------------------------------------------------------

  lemma {:induction false} SessionOf(rec: SessionRecord, tools: seq<ToolDescriptor>, hash: Digest, p: Publication)
    requires p in PublishedBy(rec, tools, hash)
    ensures p.session == rec.sessionId && p.kind == rec.kind && p.hash == SchemaHash(hash, p.schema)
        && exists t :: t in tools && t.inputSchema == p.schema
  {
    var init, tool := tools[..|tools| - 1], tools[|tools| - 1];
    assert tools == init + [tool];
    if p in PublishedBy(rec, init, hash) {
      SessionOf(rec, init, hash, p);
      var t :| t in init && t.inputSchema == p.schema;
      assert t in tools;
    } else {
      assert tool in tools && tool.inputSchema == p.schema;
    }
  }

  /** How often a record publishes `p`. */
  function TimesBy(rec: SessionRecord, hash: Digest, p: Publication): nat {
    if rec.state.Active? then multiset(PublishedBy(rec, rec.tools, hash))[p] else 0
  }

  /** How often a registry publishes `p`. */
  function Times(r: Reg, hash: Digest, p: Publication): nat {
    if p.session in r.sessions then TimesBy(r.sessions[p.session], hash, p) else 0
  }

  lemma TimesSnoc(init: seq<SessionRecord>, rec: SessionRecord, hash: Digest, p: Publication)
    ensures multiset(Publications(init + [rec], hash))[p] == multiset(Publications(init, hash))[p]
        + TimesBy(rec, hash, p)
    ensures rec.sessionId != p.session ==> TimesBy(rec, hash, p) == 0
  {
    assert (init + [rec])[..|init|] == init;
    var own := PublishedBy(rec, rec.tools, hash);
    assert multiset(Publications(init, hash) + own) == multiset(Publications(init, hash)) + multiset(own);
    if p in multiset(own) { SessionOf(rec, rec.tools, hash, p); }
  }

  lemma {:induction false} TimesAbsent(snapshot: seq<SessionRecord>, hash: Digest, p: Publication)
    requires forall i :: 0 <= i < |snapshot| ==> snapshot[i].sessionId != p.session
    ensures multiset(Publications(snapshot, hash))[p] == 0
  {
    if snapshot != [] {
      var init, rec := snapshot[..|snapshot| - 1], snapshot[|snapshot| - 1];
      TimesAbsent(init, hash, p);
      assert snapshot == init + [rec];
      TimesSnoc(init, rec, hash, p);
    }
  }

  lemma {:induction false} TimesPresent(snapshot: seq<SessionRecord>, hash: Digest, p: Publication, i: nat)
    requires forall i, j :: 0 <= i < j < |snapshot| ==> snapshot[i].sessionId != snapshot[j].sessionId
    requires i < |snapshot| && snapshot[i].sessionId == p.session
    ensures multiset(Publications(snapshot, hash))[p] == TimesBy(snapshot[i], hash, p)
  {
    var init, rec := snapshot[..|snapshot| - 1], snapshot[|snapshot| - 1];
    assert snapshot == init + [rec];
    TimesSnoc(init, rec, hash, p);
    if i < |init| { TimesPresent(init, hash, p, i); } else { TimesAbsent(init, hash, p); }
  }

  /** A snapshot publishes what its registry publishes, whatever its order. */
  lemma PublicationsBag(snapshot: seq<SessionRecord>, r: Reg, hash: Digest, p: Publication)
    requires IsSnapshot(snapshot, r)
    ensures multiset(Publications(snapshot, hash))[p] == Times(r, hash, p)
  {
    if p.session in r.sessions {
      var i :| 0 <= i < |snapshot| && snapshot[i].sessionId == p.session;
      TimesPresent(snapshot, hash, p, i);
    } else {
      TimesAbsent(snapshot, hash, p);
    }
  }

  lemma SameMembers(a: seq<Publication>, b: seq<Publication>, p: Publication)
    requires multiset(a) == multiset(b)
    ensures p in a <==> p in b
  {
    assert p in a <==> p in multiset(a);
    assert p in b <==> p in multiset(b);
  }

  lemma {:induction false} PickBag(pubs: seq<Publication>, name: string, hashes: set<string>, p: Publication)
    ensures multiset(Pick(pubs, name, hashes))[p] == if p.name == name && p.hash in hashes then multiset(pubs)[p] else 0
  {
    if pubs != [] {
      var init, last := pubs[..|pubs| - 1], pubs[|pubs| - 1];
      assert pubs == init + [last];
      PickBag(init, name, hashes, p);
      PickSnoc(init, last, name, hashes);
    }
  }

  lemma SessionBagConcat(a: seq<Publication>, b: seq<Publication>)
    ensures SessionBag(a + b) == SessionBag(a) + SessionBag(b)
  {
    assert Sessions(a + b) == Sessions(a) + Sessions(b);
  }

  lemma {:induction false} SessionBagOfBag(a: seq<Publication>, b: seq<Publication>)
    requires multiset(a) == multiset(b)
    ensures SessionBag(a) == SessionBag(b)
  {
    assert |multiset(a)| == |a| && |multiset(b)| == |b|;
    if a != [] {
      var init, p := a[..|a| - 1], a[|a| - 1];
      assert a == init + [p];
      SameMembers(a, b, p);
      var i :| 0 <= i < |b| && b[i] == p;
      var before, after := b[..i], b[i + 1..];
      assert b == before + ([p] + after);
      assert multiset(before + after) == multiset(b) - multiset{p};
      SessionBagOfBag(init, before + after);
      SessionBagAround(before, p, after);
      BucketSnoc(init, p);
    }
  }

  lemma SessionBagAround(before: seq<Publication>, p: Publication, after: seq<Publication>)
    ensures SessionBag(before + ([p] + after)) == SessionBag(before + after) + multiset{p.session}
  {
    SessionBagConcat(before, [p] + after);
    SessionBagConcat([p], after);
    SessionBagConcat(before, after);
    assert Sessions([p]) == [p.session];
  }

  // ---- Slots from the same bag --------------------------------------------------------------------

  lemma SetsOfBag(a: seq<Publication>, b: seq<Publication>, name: string)
    requires multiset(a) == multiset(b)
    ensures Names(a) == Names(b) && Hashes(a, name) == Hashes(b, name) && KindSet(a) == KindSet(b)
  {
    SubsetsOfBag(a, b, name);
    SubsetsOfBag(b, a, name);
  }

  lemma SubsetsOfBag(a: seq<Publication>, b: seq<Publication>, name: string)
    requires multiset(a) == multiset(b)
    ensures Names(a) <= Names(b) && Hashes(a, name) <= Hashes(b, name) && KindSet(a) <= KindSet(b)
  {
    forall i | 0 <= i < |a| ensures exists j :: 0 <= j < |b| && b[j] == a[i] {
      SameMembers(a, b, a[i]);
    }
  }

  lemma BucketsOfBag(a: seq<Publication>, b: seq<Publication>, name: string, hashes: set<string>)
    requires multiset(a) == multiset(b)
    ensures multiset(Pick(a, name, hashes)) == multiset(Pick(b, name, hashes))
  {
    forall p ensures multiset(Pick(a, name, hashes))[p] == multiset(Pick(b, name, hashes))[p] {
      PickBag(a, name, hashes, p);
      PickBag(b, name, hashes, p);
    }
  }

  /** Every publication carries the hash of its schema, which is a well-formed value. */
  ghost predicate Honest(pubs: seq<Publication>, hash: Digest) {
    forall i :: 0 <= i < |pubs| ==> WellFormed(pubs[i].schema) && pubs[i].hash == SchemaHash(hash, pubs[i].schema)
  }

  /** Equal but for the description and the order of keys in the schema. */
  ghost predicate SameSlot(a: ProxySlot, b: ProxySlot) {
    && a.(description := b.description, inputSchema := b.inputSchema) == b
    && Same(a.inputSchema, b.inputSchema)
  }

  /** The first schemas of the same bucket in two orders mean the same. */
  lemma FirstSchemas(a: seq<Publication>, b: seq<Publication>, name: string, h: string, hash: Digest)
    requires multiset(a) == multiset(b) && Honest(a, hash) && Injective(hash) && h in Hashes(a, name)
    ensures var x, y := Pick(a, name, {h}), Pick(b, name, {h});
            x != [] && y != [] && WellFormed(x[0].schema) && WellFormed(y[0].schema) && Same(x[0].schema, y[0].schema)
  {
    var x, y := Pick(a, name, {h}), Pick(b, name, {h});
    SetsOfBag(a, b, name);
    BucketEmptyIff(a, name, h);
    BucketEmptyIff(b, name, h);
    PickMember(a, name, {h}, x[0]);
    PickMember(b, name, {h}, y[0]);
    SameMembers(a, b, y[0]);
    var i :| 0 <= i < |a| && a[i] == x[0];
    var j :| 0 <= j < |a| && a[j] == y[0];
    BucketsAreMeanings(hash, x[0].schema, y[0].schema);
  }

  lemma CandidatesOfBag(a: seq<Publication>, b: seq<Publication>, name: string, hashes: set<string>)
    requires multiset(a) == multiset(b)
    ensures Candidates(Pick(a, name, hashes)) == Candidates(Pick(b, name, hashes))
    ensures KindSet(Pick(a, name, hashes)) == KindSet(Pick(b, name, hashes))
  {
    BucketsOfBag(a, b, name, hashes);
    SessionBagOfBag(Pick(a, name, hashes), Pick(b, name, hashes));
    SetsOfBag(Pick(a, name, hashes), Pick(b, name, hashes), name);
  }

  lemma BranchesOfBag(a: seq<Publication>, b: seq<Publication>, name: string, h: string, hash: Digest)
    requires multiset(a) == multiset(b) && Honest(a, hash) && Injective(hash) && h in Hashes(a, name)
    ensures AlikeValues(Branch(Pick(a, name, {h})), Branch(Pick(b, name, {h})))
  {
    FirstSchemas(a, b, name, h, hash);
    CandidatesOfBag(a, b, name, {h});
    SelectorKeepsMeaning(Pick(a, name, {h})[0].schema, Pick(b, name, {h})[0].schema, Candidates(Pick(a, name, {h})),
        true);
  }

  lemma OneOfAlike(x: seq<Json>, y: seq<Json>)
    requires |x| == |y| && forall i :: 0 <= i < |x| ==> AlikeValues(x[i], y[i])
    ensures AlikeValues(OneOf(x), OneOf(y))
  {
    var f, g := OneOf(x).fields, OneOf(y).fields;
    assert AlikeValues(Arr(x), Arr(y));
    assert f[0].key == g[0].key == "type" && f[1].key == g[1].key == "oneOf";
    forall k ensures k in Keys(f) <==> k in Keys(g) {
      if k in Keys(f) { var i :| 0 <= i < |f| && f[i].key == k; assert g[i].key == k; }
      if k in Keys(g) { var i :| 0 <= i < |g| && g[i].key == k; assert f[i].key == k; }
    }
  }

  lemma SlotsOfBag(a: seq<Publication>, b: seq<Publication>, name: string, hash: Digest)
    requires multiset(a) == multiset(b) && Honest(a, hash) && Injective(hash)
    ensures SameSlot(SlotOf(a, name, hash), SlotOf(b, name, hash))
  {
    SetsOfBag(a, b, name);
    var hashes := Sorted(Hashes(a, name));
    CandidatesOfBag(a, b, name, Hashes(a, name));
    var x, y := Buckets(a, name, hashes), Buckets(b, name, hashes);
    if |hashes| == 1 {
      SoleBucketAlike(a, b, name, hashes, hash);
    } else {
      forall i | 0 <= i < |hashes| ensures AlikeValues(Branches(x)[i], Branches(y)[i]) {
        BranchesOfBag(a, b, name, hashes[i], hash);
      }
      OneOfAlike(Branches(x), Branches(y));
      BucketsAreMeanings(hash, OneOf(Branches(x)), OneOf(Branches(y)));
    }
  }

  lemma SoleBucketAlike(a: seq<Publication>, b: seq<Publication>, name: string, hashes: seq<string>, hash: Digest)
    requires multiset(a) == multiset(b) && Honest(a, hash) && Injective(hash)
    requires Hashes(a, name) == Hashes(b, name) == Elements(hashes) && |hashes| == 1
    ensures var x, y, ids := Named(a, name), Named(b, name), Candidates(Named(a, name));
            x != [] && y != [] && Same(Selector(x[0].schema, ids, |ids| > 1), Selector(y[0].schema, ids, |ids| > 1))
  {
    SoleBucket(a, name, hashes);
    SoleBucket(b, name, hashes);
    assert hashes[0] in Elements(hashes);
    FirstSchemas(a, b, name, hashes[0], hash);
    var x, y, ids := Named(a, name), Named(b, name), Candidates(Named(a, name));
    SelectorKeepsMeaning(x[0].schema, y[0].schema, ids, |ids| > 1);
  }

  // ---- The theorem -------------------------------------------------------------------------------

  ghost predicate SchemasWellFormed(r: Reg) {
    forall uid, i :: uid in r.sessions && 0 <= i < |r.sessions[uid].tools|
        ==> WellFormed(r.sessions[uid].tools[i].inputSchema)
  }

  lemma SnapshotHonest(snapshot: seq<SessionRecord>, r: Reg, hash: Digest)
    requires IsSnapshot(snapshot, r) && SchemasWellFormed(r)
    ensures Honest(Publications(snapshot, hash), hash)
  {
    var pubs := Publications(snapshot, hash);
    forall i | 0 <= i < |pubs| ensures WellFormed(pubs[i].schema) && pubs[i].hash == SchemaHash(hash, pubs[i].schema) {
      var p := pubs[i];
      assert p in multiset(pubs);
      PublicationsBag(snapshot, r, hash, p);
      var rec := r.sessions[p.session];
      assert p in PublishedBy(rec, rec.tools, hash);
      SessionOf(rec, rec.tools, hash, p);
      var t :| t in rec.tools && t.inputSchema == p.schema;
      var k :| 0 <= k < |rec.tools| && rec.tools[k] == t;
    }
  }

  lemma PublishedKind(snapshot: seq<SessionRecord>, r: Reg, hash: Digest, p: Publication)
    requires IsSnapshot(snapshot, r) && p in Publications(snapshot, hash)
    ensures p.session in r.sessions && p.kind == r.sessions[p.session].kind
  {
    assert p in multiset(Publications(snapshot, hash));
    PublicationsBag(snapshot, r, hash, p);
    var rec := r.sessions[p.session];
    assert p in PublishedBy(rec, rec.tools, hash);
    SessionOf(rec, rec.tools, hash, p);
    var i :| 0 <= i < |snapshot| && snapshot[i].sessionId == p.session;
  }

  lemma NamedKind(snapshot: seq<SessionRecord>, r: Reg, hash: Digest, name: string, p: Publication)
    requires IsSnapshot(snapshot, r) && p in Named(Publications(snapshot, hash), name)
    ensures PublishedCount(r, p.session, name) > 0 && r.sessions[p.session].kind == p.kind
  {
    var pubs := Publications(snapshot, hash);
    PickMember(pubs, name, Hashes(pubs, name), p);
    PublishedKind(snapshot, r, hash, p);
    var j :| 0 <= j < |pubs| && pubs[j] == p;
    CountPositive(pubs, name, p.session);
    SnapshotCount(snapshot, r, hash, name, p.session);
  }

  lemma KindNamed(snapshot: seq<SessionRecord>, r: Reg, hash: Digest, name: string, uid: string)
    requires IsSnapshot(snapshot, r) && PublishedCount(r, uid, name) > 0
    ensures r.sessions[uid].kind in KindSet(Named(Publications(snapshot, hash), name))
  {
    var pubs := Publications(snapshot, hash);
    SnapshotCount(snapshot, r, hash, name, uid);
    CountPositive(pubs, name, uid);
    var j :| 0 <= j < |pubs| && pubs[j].name == name && pubs[j].session == uid;
    PickMember(pubs, name, Hashes(pubs, name), pubs[j]);
    PublishedKind(snapshot, r, hash, pubs[j]);
    var ps := Named(pubs, name);
    var i :| 0 <= i < |ps| && ps[i] == pubs[j];
  }

  /** The kinds of a slot, sorted and each once, are those of the sessions that publish the name. */
  lemma KindsExact(snapshot: seq<SessionRecord>, r: Reg, hash: Digest, name: string, kind: string)
    requires IsSnapshot(snapshot, r)
    ensures var kinds := SlotOf(Publications(snapshot, hash), name, hash).kinds;
            && StrictlySortedStrings(kinds)
            && (kind in kinds <==> exists uid :: PublishedCount(r, uid, name) > 0 && r.sessions[uid].kind == kind)
  {
    var ps := Named(Publications(snapshot, hash), name);
    assert SlotOf(Publications(snapshot, hash), name, hash).kinds == Sorted(KindSet(ps));
    if kind in KindSet(ps) {
      var i :| 0 <= i < |ps| && ps[i].kind == kind;
      NamedKind(snapshot, r, hash, name, ps[i]);
    }
    if uid :| PublishedCount(r, uid, name) > 0 && r.sessions[uid].kind == kind {
      KindNamed(snapshot, r, hash, name, uid);
    }
  }

  ghost predicate SameView(v1: seq<ProxySlot>, v2: seq<ProxySlot>) {
    |v1| == |v2| && forall i :: 0 <= i < |v1| ==> SameSlot(v1[i], v2[i])
  }

  lemma ViewsOfBag(a: seq<Publication>, b: seq<Publication>, hash: Digest)
    requires multiset(a) == multiset(b) && Honest(a, hash) && Injective(hash)
    ensures SameView(ViewOf(a, hash), ViewOf(b, hash))
  {
    SetsOfBag(a, b, "");
    var names := Sorted(Names(a));
    ViewNames(a, hash);
    ViewNames(b, hash);
    forall i | 0 <= i < |names| ensures SameSlot(ViewOf(a, hash)[i], ViewOf(b, hash)[i]) {
      SlotsOfBag(a, b, names[i], hash);
    }
  }

  /** Two snapshots of one registry, in any two orders, give views that differ only in the wording of descriptions
      and in the order of keys inside schemas. */
  lemma ViewIgnoresOrder(s1: seq<SessionRecord>, s2: seq<SessionRecord>, r: Reg, hash: Digest)
    requires IsSnapshot(s1, r) && IsSnapshot(s2, r) && SchemasWellFormed(r) && Injective(hash)
    ensures SameView(ViewOf(Publications(s1, hash), hash), ViewOf(Publications(s2, hash), hash))
  {
    ViewDependsOnLive(s1, r, s2, r, hash);
  }

  /** What the view can see of a registry: kind and tools of the active sessions. */
  function LiveSide(r: Reg): map<string, (string, seq<ToolDescriptor>)> {
    map uid | uid in r.sessions && r.sessions[uid].state.Active? :: (r.sessions[uid].kind, r.sessions[uid].tools)
  }

  lemma {:induction false} PublishedByLive(a: SessionRecord, b: SessionRecord, tools: seq<ToolDescriptor>, hash: Digest)
    requires a.sessionId == b.sessionId && a.kind == b.kind
    ensures PublishedBy(a, tools, hash) == PublishedBy(b, tools, hash)
  {
    if tools != [] { PublishedByLive(a, b, tools[..|tools| - 1], hash); }
  }

  /** How often each publication appears depends on the live side only. */
  lemma TimesLive(s1: seq<SessionRecord>, r1: Reg, s2: seq<SessionRecord>, r2: Reg, hash: Digest, p: Publication)
    requires IsSnapshot(s1, r1) && IsSnapshot(s2, r2) && LiveSide(r1) == LiveSide(r2)
    ensures Times(r1, hash, p) == Times(r2, hash, p)
  {
    assert p.session in LiveSide(r1) <==> p.session in LiveSide(r2);
    if p.session in LiveSide(r1) {
      var a, b := r1.sessions[p.session], r2.sessions[p.session];
      assert LiveSide(r1)[p.session] == LiveSide(r2)[p.session];
      var i :| 0 <= i < |s1| && s1[i].sessionId == p.session;
      var j :| 0 <= j < |s2| && s2[j].sessionId == p.session;
      PublishedByLive(a, b, a.tools, hash);
    }
  }

  /** Registries with the same active sessions, kinds and tools give the same view. */
  lemma ViewDependsOnLive(s1: seq<SessionRecord>, r1: Reg, s2: seq<SessionRecord>, r2: Reg, hash: Digest)
    requires IsSnapshot(s1, r1) && IsSnapshot(s2, r2) && LiveSide(r1) == LiveSide(r2) && SchemasWellFormed(r1)
        && Injective(hash)
    ensures SameView(ViewOf(Publications(s1, hash), hash), ViewOf(Publications(s2, hash), hash))
  {
    var a, b := Publications(s1, hash), Publications(s2, hash);
    forall p ensures multiset(a)[p] == multiset(b)[p] {
      PublicationsBag(s1, r1, hash, p);
      PublicationsBag(s2, r2, hash, p);
      TimesLive(s1, r1, s2, r2, hash, p);
    }
    assert multiset(a) == multiset(b);
    SnapshotHonest(s1, r1, hash);
    ViewsOfBag(a, b, hash);
  }
}
