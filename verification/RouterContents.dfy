/** What the published schemas hold: each client's own schema, with the selector and nothing else. */
module RouterContents {
  import opened Basics
  import opened Json
  import opened Registry
  import opened Sorting
  import opened Router
  import opened RouterLaws
  import opened RouterOrder
  import opened RouterSchema

  // ---- A client's schema in a published one -------------------------------------------------------------

  function PropertiesOf(fields: seq<Field>): seq<Field> {
    FieldsOf(At(fields, "properties"))
  }

  predicate Requires(fields: seq<Field>, name: string) {
    Str(name) in ItemsOf(At(fields, "required"))
  }

  const SELECTOR_READS := "Session-manager routing selector; removed before forwarding to the target tool"

  /** The published schema is the client's, up to key order, with the selector: every other key, property and required
      name is the client's, a missing type is `object`, and `session_id` is a string out of these. */
  ghost predicate Carries(published: Json, schema: Json, ids: seq<string>, required: bool) {
    published.Obj? &&
      var after, before := published.fields, FieldsOf(schema);
      && (forall key :: key !in {"type", "properties", "required"} ==> SameAt(after, before, key))
      && (if Get(before, "type").Some? then SameAt(after, before, "type")
          else Get(after, "type") == Some(Str("object")))
      && (forall name :: name != "session_id" ==> SameAt(PropertiesOf(after), PropertiesOf(before), name))
      && (forall name :: name != "session_id" ==> (Requires(after, name) <==> Requires(before, name)))
      && Get(PropertiesOf(after), "session_id")
           == Some(Obj([Field("type", Str("string")), Field("description", Str(SELECTOR_READS)),
                        Field("enum", Arr(Strings(ids)))]))
      && (Requires(after, "session_id") <==> required || Requires(before, "session_id"))
  }

  lemma SameSelf(f: seq<Field>, key: string)
    requires WellFormed(Obj(f))
    ensures SameAt(f, f, key)
  {
    GetFinds(f, key);
    if Get(f, key).Some? {
      WellFormedFields(f, key);
      AlikeSelf(Get(f, key).value);
    }
  }

  lemma PropertiesWellFormed(schema: Json)
    requires WellFormed(schema)
    ensures WellFormed(Obj(FieldsOf(schema))) && WellFormed(Obj(PropertiesOf(FieldsOf(schema))))
  {
    assert WellFormed(Obj([]));
    WellFormedFields(FieldsOf(schema), "properties");
  }

  /** The selector is required exactly when it was asked for, or the client's schema asked. */
  lemma RequiresSelector(schema: Json, ids: seq<string>, required: bool)
    ensures Requires(Selector(schema, ids, required).fields, "session_id") <==>
      required || Requires(FieldsOf(schema), "session_id")
  {
    var typed := WithType(FieldsOf(schema));
    if required {
      var more := WithProperty(typed, ids);
      GetPut(more, "required", Arr(RequiredItems(more)), "required");
    } else {
      SelectorKeys(schema, ids, false, "required");
    }
  }

  lemma SelectorKeepsKeys(schema: Json, ids: seq<string>, required: bool, key: string)
    requires WellFormed(schema) && key !in {"properties", "required"}
    ensures var before, after := FieldsOf(schema), Selector(schema, ids, required).fields;
      if key == "type" && Get(before, "type").None? then Get(after, "type") == Some(Str("object"))
      else SameAt(after, before, key)
  {
    PropertiesWellFormed(schema);
    SelectorAddsOnlyItself(schema, ids, required, if key == "type" then "" else key, "", Null);
    SameSelf(FieldsOf(schema), key);
  }

  lemma SelectorKeepsProperties(schema: Json, ids: seq<string>, required: bool, name: string)
    requires WellFormed(schema) && name != "session_id"
    ensures SameAt(PropertiesOf(Selector(schema, ids, required).fields), PropertiesOf(FieldsOf(schema)), name)
    ensures Requires(Selector(schema, ids, required).fields, name) <==> Requires(FieldsOf(schema), name)
  {
    PropertiesWellFormed(schema);
    SelectorAddsOnlyItself(schema, ids, required, "", name, Str(name));
    SameSelf(PropertiesOf(FieldsOf(schema)), name);
  }

  lemma SelectorIsListed(schema: Json, ids: seq<string>, required: bool)
    requires ids != []
    ensures Get(PropertiesOf(Selector(schema, ids, required).fields), "session_id")
         == Some(Obj([Field("type", Str("string")), Field("description", Str(SELECTOR_TEXT)),
                      Field("enum", Arr(Strings(ids)))]))
  {
    SelectorAddsOnlyItself(schema, ids, required, "", "", Null);
    assert FieldsOf(SelectorProperty(ids)) == [Field("type", Str("string")), Field("description", Str(SELECTOR_TEXT)),
                                               Field("enum", Arr(Strings(ids)))];
  }

  lemma SelectorCarries(schema: Json, ids: seq<string>, required: bool)
    requires WellFormed(schema) && ids != []
    ensures Carries(Selector(schema, ids, required), schema, ids, required)
  {
    var before, after := FieldsOf(schema), Selector(schema, ids, required).fields;
    forall key | key !in {"type", "properties", "required"} ensures SameAt(after, before, key) {
      SelectorKeepsKeys(schema, ids, required, key);
    }
    SelectorKeepsKeys(schema, ids, required, "type");
    forall name | name != "session_id"
      ensures SameAt(PropertiesOf(after), PropertiesOf(before), name)
          && (Requires(after, name) <==> Requires(before, name))
    {
      SelectorKeepsProperties(schema, ids, required, name);
    }
    RequiresSelector(schema, ids, required);
    SelectorIsListed(schema, ids, required);
  }

  lemma SameAtTransitive(a: seq<Field>, b: seq<Field>, c: seq<Field>, key: string)
    requires SameAt(a, b, key) && SameAt(b, c, key)
    requires WellFormed(At(a, key)) && WellFormed(At(b, key)) && WellFormed(At(c, key))
    ensures SameAt(a, c, key)
  {
    SameEquivalence(At(a, key), At(b, key), At(c, key));
  }

  lemma AlikeSameAt(f: seq<Field>, g: seq<Field>, key: string)
    requires Alike(f, g)
    ensures SameAt(f, g, key) && WellFormed(At(f, key)) && WellFormed(At(g, key))
  {
    SameByKey(f, g);
    AlikeAt(f, g, key);
  }

  /** Schemas that mean the same are carried alike. */
  lemma CarriesAlike(published: Json, a: Json, b: Json, ids: seq<string>, required: bool)
    requires WellFormed(published) && AlikeValues(a, b) && Carries(published, a, ids, required)
    ensures Carries(published, b, ids, required)
  {
    var after, f, g := published.fields, FieldsOf(a), FieldsOf(b);
    AlikeFields(a, b);
    AlikeAt(f, g, "properties");
    AlikeFields(At(f, "properties"), At(g, "properties"));
    PropertiesWellFormed(published);
    forall key ensures SameAt(f, g, key) && (SameAt(after, f, key) ==> SameAt(after, g, key)) {
      AlikeSameAt(f, g, key);
      WellFormedFields(after, key);
      if SameAt(after, f, key) { SameAtTransitive(after, f, g, key); }
    }
    forall name | name != "session_id" ensures SameAt(PropertiesOf(after), PropertiesOf(g), name) {
      AlikeSameAt(PropertiesOf(f), PropertiesOf(g), name);
      WellFormedFields(PropertiesOf(after), name);
      SameAtTransitive(PropertiesOf(after), PropertiesOf(f), PropertiesOf(g), name);
    }
    forall name: string ensures Requires(f, name) <==> Requires(g, name) {
      AlikeAt(f, g, "required");
      AlikeItems(At(f, "required"), At(g, "required"), Str(name));
    }
    assert SameAt(f, g, "type");
  }

  // ---- The bucket of a publication ------------------------------------------------------------------------

  /** The bucket's schema carries the schema of each of its publications. */
  lemma BucketCarries(pubs: seq<Publication>, name: string, hashes: set<string>, h: string, p: Publication,
      hash: Digest,
      ids: seq<string>, required: bool)
    requires Honest(pubs, hash) && Injective(hash) && p in pubs && p.name == name && p.hash == h && h in hashes
        && ids != []
    requires var bucket := Pick(pubs, name, hashes); bucket != [] && bucket[0].hash == h
    ensures var published := Selector(Pick(pubs, name, hashes)[0].schema, ids, required);
      WellFormed(published) && Carries(published, p.schema, ids, required)
  {
    var q := Pick(pubs, name, hashes)[0];
    PickMember(pubs, name, hashes, q);
    var i :| 0 <= i < |pubs| && pubs[i] == p;
    var j :| 0 <= j < |pubs| && pubs[j] == q;
    BucketsAreMeanings(hash, q.schema, p.schema);
    AlikeSelf(q.schema);
    SelectorKeepsMeaning(q.schema, q.schema, ids, required);
    SelectorCarries(q.schema, ids, required);
    CarriesAlike(Selector(q.schema, ids, required), q.schema, p.schema, ids, required);
  }

  /** The session published the name with a schema that means the same. */
  ghost predicate PublishedAlike(pubs: seq<Publication>, p: Publication, id: string) {
    exists q :: q in pubs && q.name == p.name && q.session == id && Same(q.schema, p.schema)
  }

  lemma SameHashIff(pubs: seq<Publication>, p: Publication, q: Publication, hash: Digest)
    requires Honest(pubs, hash) && Injective(hash) && p in pubs && q in pubs
    ensures q.hash == p.hash <==> Same(q.schema, p.schema)
  {
    var i :| 0 <= i < |pubs| && pubs[i] == p;
    var j :| 0 <= j < |pubs| && pubs[j] == q;
    BucketsAreMeanings(hash, q.schema, p.schema);
  }

  /** A bucket's sessions are those that published the name with a schema that means the same. */
  lemma BucketSessions(pubs: seq<Publication>, p: Publication, hash: Digest, id: string)
    requires Honest(pubs, hash) && Injective(hash) && p in pubs
    ensures id in Candidates(Pick(pubs, p.name, {p.hash})) <==> PublishedAlike(pubs, p, id)
  {
    InBucket(pubs, p.name, {p.hash}, id);
    if PublishedUnder(pubs, p.name, p.hash, id) {
      var q :| q in pubs && q.name == p.name && q.hash == p.hash && q.session == id;
      SameHashIff(pubs, p, q, hash);
    }
    if PublishedAlike(pubs, p, id) {
      var q :| q in pubs && q.name == p.name && q.session == id && Same(q.schema, p.schema);
      SameHashIff(pubs, p, q, hash);
      assert PublishedUnder(pubs, p.name, p.hash, id);
    }
  }

  ghost predicate ListsAlike(ids: seq<string>, pubs: seq<Publication>, p: Publication) {
    forall id :: id in ids <==> PublishedAlike(pubs, p, id)
  }

  /** An alternative that is for the publication: it carries its schema, and is for the sessions that published the name
      with a schema that means the same. */
  ghost predicate IsFor(alternative: Json, pubs: seq<Publication>, p: Publication) {
    exists ids :: Carries(alternative, p.schema, ids, true) && ListsAlike(ids, pubs, p)
  }

  lemma BranchCarries(pubs: seq<Publication>, p: Publication, hash: Digest)
    requires Honest(pubs, hash) && Injective(hash) && p in pubs
    ensures var bucket := Pick(pubs, p.name, {p.hash}); Carries(Branch(bucket), p.schema, Candidates(bucket), true)
  {
    var bucket := Pick(pubs, p.name, {p.hash});
    PickMember(pubs, p.name, {p.hash}, p);
    assert bucket != [] && bucket[0] in bucket;
    PickMember(pubs, p.name, {p.hash}, bucket[0]);
    CandidateCount(bucket);
    BucketCarries(pubs, p.name, {p.hash}, p.hash, p, hash, Candidates(bucket), true);
  }

  lemma BranchIsFor(pubs: seq<Publication>, p: Publication, hash: Digest)
    requires Honest(pubs, hash) && Injective(hash) && p in pubs
    ensures IsFor(Branch(Pick(pubs, p.name, {p.hash})), pubs, p)
  {
    var ids := Candidates(Pick(pubs, p.name, {p.hash}));
    BranchCarries(pubs, p, hash);
    assert ListsAlike(ids, pubs, p) by {
      forall id ensures id in ids <==> PublishedAlike(pubs, p, id) { BucketSessions(pubs, p, hash, id); }
    }
  }

  // ---- Slots -----------------------------------------------------------------------------------------------

  /** All publications of the name have schemas that mean the same. */
  ghost predicate OneMeaning(pubs: seq<Publication>, name: string) {
    forall p, q :: p in pubs && q in pubs && p.name == name && q.name == name ==> Same(p.schema, q.schema)
  }

  lemma OneHashIff(pubs: seq<Publication>, name: string, hash: Digest)
    requires Honest(pubs, hash) && Injective(hash) && name in Names(pubs)
    ensures |Sorted(Hashes(pubs, name))| == 1 <==> OneMeaning(pubs, name)
  {
    var hashes := Sorted(Hashes(pubs, name));
    var k :| 0 <= k < |pubs| && pubs[k].name == name;
    assert pubs[k].hash in hashes;
    if |hashes| == 1 {
      forall p, q | p in pubs && q in pubs && p.name == name && q.name == name ensures Same(p.schema, q.schema) {
        assert p.hash in hashes && q.hash in hashes by {
          var i :| 0 <= i < |pubs| && pubs[i] == p;
          var j :| 0 <= j < |pubs| && pubs[j] == q;
        }
        SameHashIff(pubs, q, p, hash);
      }
    } else {
      assert hashes[0] in Hashes(pubs, name) && hashes[1] in Hashes(pubs, name) && StrLt(hashes[0], hashes[1]);
      var i :| 0 <= i < |pubs| && pubs[i].name == name && pubs[i].hash == hashes[0];
      var j :| 0 <= j < |pubs| && pubs[j].name == name && pubs[j].hash == hashes[1];
      SameHashIff(pubs, pubs[j], pubs[i], hash);
    }
  }

  /** One schema for all: the slot's schema carries it for all the candidates, and requires the selector when there are
      several; its hash is the schema's and its description is one of those published. */
  lemma SoleSchemaPublished(pubs: seq<Publication>, p: Publication, hash: Digest)
    requires Honest(pubs, hash) && Injective(hash) && p in pubs && OneMeaning(pubs, p.name)
    ensures var slot := SlotOf(pubs, p.name, hash);
      && Carries(slot.inputSchema, p.schema, slot.sessionIds, |slot.sessionIds| > 1)
      && slot.schemaHash == hash(Canonicalize(p.schema))
      && exists q :: q in pubs && q.name == p.name && q.description == slot.description
  {
    var i :| 0 <= i < |pubs| && pubs[i] == p;
    assert p.name in Names(pubs) && p.hash in Hashes(pubs, p.name);
    OneHashIff(pubs, p.name, hash);
    var hashes, ps := Sorted(Hashes(pubs, p.name)), Named(pubs, p.name);
    assert p.hash in hashes && hashes == [p.hash];
    PickMember(pubs, p.name, Hashes(pubs, p.name), p);
    assert ps[0] in ps;
    PickMember(pubs, p.name, Hashes(pubs, p.name), ps[0]);
    CandidateCount(ps);
    var ids := Candidates(ps);
    BucketCarries(pubs, p.name, Hashes(pubs, p.name), p.hash, p, hash, ids, |ids| > 1);
  }

  /** Some alternative is for the publication. */
  ghost predicate HasAlternative(branches: seq<Json>, pubs: seq<Publication>, p: Publication) {
    exists j :: 0 <= j < |branches| && IsFor(branches[j], pubs, p)
  }

  /** The alternative is for some publication of the name. */
  ghost predicate Meant(alternative: Json, pubs: seq<Publication>, name: string) {
    exists p :: p in pubs && p.name == name && IsFor(alternative, pubs, p)
  }

  /** Each publication has an alternative that is for it, and each alternative is for some publication. */
  ghost predicate Alternatives(branches: seq<Json>, pubs: seq<Publication>, name: string) {
    && (forall p :: p in pubs && p.name == name ==> HasAlternative(branches, pubs, p))
    && (forall j :: 0 <= j < |branches| ==> Meant(branches[j], pubs, name))
  }

  lemma EachHasAlternative(pubs: seq<Publication>, p: Publication, hash: Digest)
    requires Honest(pubs, hash) && Injective(hash) && p in pubs
    ensures HasAlternative(BranchesFor(pubs, p.name), pubs, p)
  {
    var hashes := Sorted(Hashes(pubs, p.name));
    var i :| 0 <= i < |pubs| && pubs[i] == p;
    assert p.hash in Hashes(pubs, p.name);
    var j :| 0 <= j < |hashes| && hashes[j] == p.hash;
    BranchIsFor(pubs, p, hash);
    assert BranchesFor(pubs, p.name)[j] == Branch(Pick(pubs, p.name, {p.hash}));
  }

  lemma EachIsMeant(pubs: seq<Publication>, name: string, hash: Digest, j: nat)
    requires Honest(pubs, hash) && Injective(hash) && j < |BranchesFor(pubs, name)|
    ensures Meant(BranchesFor(pubs, name)[j], pubs, name)
  {
    var hashes := Sorted(Hashes(pubs, name));
    assert hashes[j] in Hashes(pubs, name);
    var i :| 0 <= i < |pubs| && pubs[i].name == name && pubs[i].hash == hashes[j];
    BranchIsFor(pubs, pubs[i], hash);
    assert BranchesFor(pubs, name)[j] == Branch(Pick(pubs, name, {pubs[i].hash}));
    assert pubs[i] in pubs;
  }

  lemma AlternativesHold(pubs: seq<Publication>, name: string, hash: Digest)
    requires Honest(pubs, hash) && Injective(hash)
    ensures Alternatives(BranchesFor(pubs, name), pubs, name)
  {
    var branches := BranchesFor(pubs, name);
    forall p | p in pubs && p.name == name ensures HasAlternative(branches, pubs, p) {
      EachHasAlternative(pubs, p, hash);
    }
    forall j | 0 <= j < |branches| ensures Meant(branches[j], pubs, name) { EachIsMeant(pubs, name, hash, j); }
  }

  /** Several schemas: the slot's schema is a choice between alternatives, each publication has one and each is for one;
      its hash is its own, and its description names the candidates. */
  lemma VariantsPublished(pubs: seq<Publication>, name: string, hash: Digest)
    requires Honest(pubs, hash) && Injective(hash) && name in Names(pubs) && !OneMeaning(pubs, name)
    ensures var slot, branches := SlotOf(pubs, name, hash), BranchesFor(pubs, name);
      && slot.inputSchema == Obj([Field("type", Str("object")), Field("oneOf", Arr(branches))])
      && Alternatives(branches, pubs, name)
      && slot.schemaHash == hash(Canonicalize(slot.inputSchema))
      && slot.description
           == Some("ClientProxy tool with session-specific schemas; select one of: " + Join(slot.sessionIds, ", "))
  {
    OneHashIff(pubs, name, hash);
    AlternativesHold(pubs, name, hash);
  }

  // ---- In terms of the registry ----------------------------------------------------------------------------

  /** The session is active and declares the tool as public. */
  predicate Declares(r: Reg, uid: string, tool: ToolDescriptor) {
    && uid in r.sessions && r.sessions[uid].sessionId == uid && r.sessions[uid].state.Active?
    && tool in r.sessions[uid].tools && tool.visibility.Public?
  }

  lemma {:induction false} DeclaredIsPublished(rec: SessionRecord, tools: seq<ToolDescriptor>, tool: ToolDescriptor,
      hash: Digest)
    requires tool in tools && tool.visibility.Public?
    ensures Publish(rec, tool, hash) in PublishedBy(rec, tools, hash)
  {
    var init := tools[..|tools| - 1];
    assert tools == init + [tools[|tools| - 1]];
    if tool in init { DeclaredIsPublished(rec, init, tool, hash); }
  }

  lemma PublicationOf(snapshot: seq<SessionRecord>, r: Reg, hash: Digest, uid: string, tool: ToolDescriptor)
    requires IsSnapshot(snapshot, r) && Declares(r, uid, tool)
    ensures Publish(r.sessions[uid], tool, hash) in Publications(snapshot, hash)
  {
    var rec := r.sessions[uid];
    var p := Publish(rec, tool, hash);
    DeclaredIsPublished(rec, rec.tools, tool, hash);
    PublicationsBag(snapshot, r, hash, p);
    assert p in multiset(PublishedBy(rec, rec.tools, hash));
    assert p in multiset(Publications(snapshot, hash));
  }

  /** Every client's schema reaches the agents: whatever public tool an active session declares, the view has a slot of
      that name, and the slot's schema is that tool's own with the selector, or offers an alternative that is, for the
      sessions that declare the tool with a schema that means the same. */
  lemma SchemaIsPublished(snapshot: seq<SessionRecord>, r: Reg, hash: Digest, uid: string, tool: ToolDescriptor)
    requires IsSnapshot(snapshot, r) && SchemasWellFormed(r) && Injective(hash) && Declares(r, uid, tool)
    ensures var pubs := Publications(snapshot, hash);
      && Find(tool.name, ViewOf(pubs, hash)).Some?
      && var slot := Find(tool.name, ViewOf(pubs, hash)).value;
         if OneMeaning(pubs, tool.name) then
           Carries(slot.inputSchema, tool.inputSchema, slot.sessionIds, |slot.sessionIds| > 1)
         else exists branches ::
           && slot.inputSchema == Obj([Field("type", Str("object")), Field("oneOf", Arr(branches))])
           && HasAlternative(branches, pubs, Publish(r.sessions[uid], tool, hash))
  {
    var pubs, p := Publications(snapshot, hash), Publish(r.sessions[uid], tool, hash);
    PublicationOf(snapshot, r, hash, uid, tool);
    SnapshotHonest(snapshot, r, hash);
    var i :| 0 <= i < |pubs| && pubs[i] == p;
    assert tool.name in Names(pubs);
    FindSlot(tool.name, pubs, hash);
    if OneMeaning(pubs, tool.name) {
      SoleSchemaPublished(pubs, p, hash);
    } else {
      VariantsPublished(pubs, tool.name, hash);
    }
  }

  /** A joined list, from the front: the first part, then the separator and the rest. */
  lemma {:induction false} JoinFromFront(parts: seq<string>, separator: string)
    requires parts != []
    ensures Join(parts, separator) == parts[0] + if |parts| == 1 then "" else separator + Join(parts[1..], separator)
  {
    var n := |parts| - 1;
    if n >= 1 {
      JoinFromFront(parts[..n], separator);
      assert parts[..n][0] == parts[0] && parts[1..][..n - 1] == parts[..n][1..] && parts[1..][n - 1] == parts[n];
      if n == 1 {
        assert parts[..1] == [parts[0]] && parts[1..] == [parts[1]];
        assert Join(parts, separator) == parts[0] + separator + parts[1];
      } else {
        assert Join(parts[1..], separator) == Join(parts[..n][1..], separator) + separator + parts[n];
      }
    }
  }
}
