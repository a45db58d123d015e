/** The published schemas against the resolver: which selectors a schema admits, and which the resolver accepts. */
module RouterSchema {
  import opened Basics
  import opened Json
  import opened Registry
  import opened Sorting
  import opened Router
  import opened RouterLaws
  import opened RouterOrder

  // ---- What a schema says about the selector ------------------------------------------------------

  /** The schema lists the selector among its required properties. */
  predicate Asks(fields: seq<Field>) {
    Str(SESSION_ID_ARGUMENT) in ItemsOf(At(fields, "required"))
  }

  function PropertyOf(fields: seq<Field>): Option<Json> {
    Get(FieldsOf(At(fields, "properties")), SESSION_ID_ARGUMENT)
  }

  function EnumOf(fields: seq<Field>): Json {
    At(FieldsOf(At(FieldsOf(At(fields, "properties")), SESSION_ID_ARGUMENT)), "enum")
  }

  /** The schema's own property admits the selector; a missing selector must not be required. */
  predicate AdmitsHere(fields: seq<Field>, selector: Option<string>) {
    match selector
    case None => !Asks(fields)
    case Some(id) => EnumOf(fields).Arr? ==> Str(id) in EnumOf(fields).items
  }

  /** JSON Schema validation of the selector argument: `required`, `properties`, `enum`, and some branch of `oneOf`. */
  ghost predicate Admits(schema: Json, selector: Option<string>) {
    schema.Obj? ==>
      && AdmitsHere(schema.fields, selector)
      && forall i :: 0 <= i < |schema.fields| && schema.fields[i].key == "oneOf" && schema.fields[i].value.Arr? ==>
           exists j :: 0 <= j < |schema.fields[i].value.items| && Admits(schema.fields[i].value.items[j], selector)
  }

  /** The schema does not speak of the selector at any depth of alternatives. */
  ghost predicate Free(schema: Json)
    decreases schema, 1
  {
    schema.Obj? ==>
      && !Asks(schema.fields) && PropertyOf(schema.fields).None?
      && FreeBranches(schema)
  }

  /** Nor do its alternatives, if it has any. */
  ghost predicate FreeBranches(schema: Json)
    decreases schema, 0
  {
    schema.Obj? ==>
      forall i :: 0 <= i < |schema.fields| && schema.fields[i].key == "oneOf" && schema.fields[i].value.Arr? ==>
        && schema.fields[i].value.items != []
        && forall j :: 0 <= j < |schema.fields[i].value.items| ==> Free(schema.fields[i].value.items[j])
  }

  lemma {:induction false} FreeAdmits(schema: Json, selector: Option<string>)
    requires Free(schema)
    ensures Admits(schema, selector)
  {
    if schema.Obj? {
      forall i | 0 <= i < |schema.fields| && schema.fields[i].key == "oneOf" && schema.fields[i].value.Arr?
        ensures exists j :: 0 <= j < |schema.fields[i].value.items| && Admits(schema.fields[i].value.items[j], selector)
      {
        assert Free(schema.fields[i].value.items[0]);
        FreeAdmits(schema.fields[i].value.items[0], selector);
      }
    }
  }

  // ---- The schema with the selector ---------------------------------------------------------------

  lemma TypeKept(fields: seq<Field>, key: string)
    requires key != "type"
    ensures Get(WithType(fields), key) == Get(fields, key)
  {
    GetPut(fields, "type", Str("object"), key);
  }

  lemma SelectorKeys(schema: Json, ids: seq<string>, required: bool, key: string)
    requires key == "oneOf" || (key == "required" && !required)
    ensures Get(Selector(schema, ids, required).fields, key) == Get(FieldsOf(schema), key)
  {
    var fields := WithType(FieldsOf(schema));
    TypeKept(FieldsOf(schema), key);
    GetPut(fields, "properties", Obj(Put(FieldsOf(At(fields, "properties")), SESSION_ID_ARGUMENT,
        SelectorProperty(ids))), key);
    var more := WithProperty(fields, ids);
    GetPut(more, "required", Arr(RequiredItems(more)), key);
  }

  lemma InRequired(items: seq<Json>, x: Json)
    requires x != Str(SESSION_ID_ARGUMENT)
    ensures x in (if Str(SESSION_ID_ARGUMENT) in items then items else items + [Str(SESSION_ID_ARGUMENT)])
        <==> x in items
  {
  }

  /** The selector is all that is added: every other key, every other property and every other required name of the
      client's schema is as it was, and a missing type becomes `object`. */
  lemma SelectorAddsOnlyItself(schema: Json, ids: seq<string>, required: bool, key: string, name: string, x: Json)
    requires key !in {"type", "properties", "required"} && name != SESSION_ID_ARGUMENT && x != Str(SESSION_ID_ARGUMENT)
    ensures var before, after := FieldsOf(schema), Selector(schema, ids, required).fields;
            && Get(after, key) == Get(before, key)
            && Get(after, "type") == (if Get(before, "type").Some? then Get(before, "type") else Some(Str("object")))
            && Get(FieldsOf(At(after, "properties")), name) == Get(FieldsOf(At(before, "properties")), name)
            && Get(FieldsOf(At(after, "properties")), SESSION_ID_ARGUMENT) == Some(SelectorProperty(ids))
            && (x in ItemsOf(At(after, "required")) <==> x in ItemsOf(At(before, "required")))
  {
    var before := FieldsOf(schema);
    var typed := WithType(before);
    TypeKept(before, key);
    TypeKept(before, "properties");
    TypeKept(before, "required");
    GetPut(before, "type", Str("object"), "type");
    var inner := FieldsOf(At(typed, "properties"));
    GetPut(inner, SESSION_ID_ARGUMENT, SelectorProperty(ids), name);
    GetPut(inner, SESSION_ID_ARGUMENT, SelectorProperty(ids), SESSION_ID_ARGUMENT);
    var value := Obj(Put(inner, SESSION_ID_ARGUMENT, SelectorProperty(ids)));
    var more := WithProperty(typed, ids);
    forall k | k in {key, "type", "properties", "required"}
      ensures Get(more, k) == if k == "properties" then Some(value) else Get(typed, k)
      ensures Get(WithRequired(more), k) == if k == "required" then Some(Arr(RequiredItems(more))) else Get(more, k)
    {
      GetPut(typed, "properties", value, k);
      GetPut(more, "required", Arr(RequiredItems(more)), k);
    }
    InRequired(ItemsOf(At(more, "required")), x);
  }

  lemma EnumOfSelector(fields: seq<Field>, ids: seq<string>)
    requires ids != []
    ensures EnumOf(WithProperty(fields, ids)) == EnumOf(WithRequired(WithProperty(fields, ids))) == Arr(Strings(ids))
    ensures Asks(WithRequired(WithProperty(fields, ids)))
  {
    var inner := FieldsOf(At(fields, "properties"));
    var value := Obj(Put(inner, SESSION_ID_ARGUMENT, SelectorProperty(ids)));
    GetPut(inner, SESSION_ID_ARGUMENT, SelectorProperty(ids), SESSION_ID_ARGUMENT);
    GetPut(fields, "properties", value, "properties");
    var more := WithProperty(fields, ids);
    GetPut(more, "required", Arr(RequiredItems(more)), "properties");
    GetPut(more, "required", Arr(RequiredItems(more)), "required");
    EnumOfProperty(ids);
  }

  lemma EnumOfProperty(ids: seq<string>)
    requires ids != []
    ensures At(FieldsOf(SelectorProperty(ids)), "enum") == Arr(Strings(ids))
  {
    var fields := FieldsOf(SelectorProperty(ids));
    assert fields[2] == Field("enum", Arr(Strings(ids)));
    GetAt(fields, 2);
  }

  lemma InStrings(ids: seq<string>, id: string)
    ensures Str(id) in Strings(ids) <==> id in ids
  {
    if id in ids { var i :| 0 <= i < |ids| && ids[i] == id; assert Strings(ids)[i] == Str(id); }
  }

  /** A schema given a selector admits exactly the listed sessions, and a missing selector unless it is required. */
  lemma SelectorAdmits(schema: Json, ids: seq<string>, required: bool, selector: Option<string>)
    requires WellFormed(schema) && FreeBranches(schema) && ids != []
    ensures Admits(Selector(schema, ids, required), selector)
       <==> if selector.Some? then selector.value in ids else !required && !Asks(FieldsOf(schema))
  {
    var r := Selector(schema, ids, required);
    EnumOfSelector(WithType(FieldsOf(schema)), ids);
    if selector.Some? { InStrings(ids, selector.value); }
    if !required { SelectorKeys(schema, ids, required, "required"); }
    SelectorKeys(schema, ids, required, "oneOf");
    AlikeSelf(schema);
    SelectorKeepsMeaning(schema, schema, ids, required);
    forall i | 0 <= i < |r.fields| && r.fields[i].key == "oneOf" && r.fields[i].value.Arr?
      ensures exists j :: 0 <= j < |r.fields[i].value.items| && Admits(r.fields[i].value.items[j], selector)
    {
      GetAt(r.fields, i);
      GetFinds(FieldsOf(schema), "oneOf");
      assert schema.Obj? && Field("oneOf", r.fields[i].value) in schema.fields;
      assert Free(r.fields[i].value.items[0]);
      FreeAdmits(r.fields[i].value.items[0], selector);
    }
  }

  // ---- Slots ----------------------------------------------------------------------------------------

  /** Every publication of the name has a well-formed schema whose alternatives do not speak of the selector. */
  ghost predicate Plain(pubs: seq<Publication>, name: string) {
    forall i :: 0 <= i < |pubs| && pubs[i].name == name ==> WellFormed(pubs[i].schema) && FreeBranches(pubs[i].schema)
  }

  lemma InSessionBag(pubs: seq<Publication>, id: string)
    ensures id in SessionBag(pubs) <==> exists i :: 0 <= i < |pubs| && pubs[i].session == id
  {
    assert id in SessionBag(pubs) <==> id in Sessions(pubs);
    if i :| 0 <= i < |pubs| && pubs[i].session == id { assert Sessions(pubs)[i] == id; }
  }

  ghost predicate PublishedUnder(pubs: seq<Publication>, name: string, h: string, id: string) {
    exists p :: p in pubs && p.name == name && p.hash == h && p.session == id
  }

  /** The sessions of a bucket are those that published the name with that schema. */
  lemma InBucket(pubs: seq<Publication>, name: string, hashes: set<string>, id: string)
    ensures id in Candidates(Pick(pubs, name, hashes)) <==> exists h :: h in hashes && PublishedUnder(pubs, name, h, id)
  {
    var bucket := Pick(pubs, name, hashes);
    InSessionBag(bucket, id);
    assert id in Candidates(bucket) <==> id in SessionBag(bucket) by {
      assert id in Candidates(bucket) <==> id in multiset(Candidates(bucket));
    }
    if i :| 0 <= i < |bucket| && bucket[i].session == id {
      PickMember(pubs, name, hashes, bucket[i]);
      assert PublishedUnder(pubs, name, bucket[i].hash, id);
    }
    if h :| h in hashes && PublishedUnder(pubs, name, h, id) {
      var p :| p in pubs && p.name == name && p.hash == h && p.session == id;
      PickMember(pubs, name, hashes, p);
    }
  }

  lemma BucketPlain(pubs: seq<Publication>, name: string, hashes: set<string>)
    requires Plain(pubs, name) && Pick(pubs, name, hashes) != []
    ensures var p := Pick(pubs, name, hashes)[0]; WellFormed(p.schema) && FreeBranches(p.schema)
    ensures Candidates(Pick(pubs, name, hashes)) != []
  {
    var p := Pick(pubs, name, hashes)[0];
    PickMember(pubs, name, hashes, p);
    assert PublishedUnder(pubs, name, p.hash, p.session);
    InBucket(pubs, name, hashes, p.session);
  }

  /** A branch admits exactly the sessions that published its schema, and never a missing selector. */
  lemma BranchAdmits(pubs: seq<Publication>, name: string, h: string, selector: Option<string>)
    requires Plain(pubs, name) && h in Hashes(pubs, name)
    ensures Admits(Branch(Pick(pubs, name, {h})), selector) <==>
        selector.Some? && PublishedUnder(pubs, name, h, selector.value)
  {
    BucketEmptyIff(pubs, name, h);
    BucketPlain(pubs, name, {h});
    var bucket := Pick(pubs, name, {h});
    SelectorAdmits(bucket[0].schema, Candidates(bucket), true, selector);
    if selector.Some? { InBucket(pubs, name, {h}, selector.value); }
  }

  lemma OneOfAdmits(branches: seq<Json>, selector: Option<string>)
    ensures Admits(OneOf(branches), selector) <==> exists j :: 0 <= j < |branches| && Admits(branches[j], selector)
  {
    var fields := OneOf(branches).fields;
    GetFinds(fields, "required");
    GetFinds(fields, "properties");
    assert At(fields, "properties") == At(fields, "required") == Null;
    assert Get([], SESSION_ID_ARGUMENT).None?;
    assert fields[1].key == "oneOf" && fields[1].value.items == branches;
  }

  /** With variants, the schema admits exactly the candidates. */
  lemma VariantsAdmit(pubs: seq<Publication>, name: string, selector: Option<string>)
    requires Plain(pubs, name)
    ensures Admits(OneOf(Branches(Buckets(pubs, name, Sorted(Hashes(pubs, name))))), selector)
       <==> selector.Some? && selector.value in Candidates(Named(pubs, name))
  {
    var hashes := Sorted(Hashes(pubs, name));
    var branches := Branches(Buckets(pubs, name, hashes));
    OneOfAdmits(branches, selector);
    forall j | 0 <= j < |branches|
      ensures Admits(branches[j], selector) <==> selector.Some? && PublishedUnder(pubs, name, hashes[j], selector.value)
    {
      BranchAdmits(pubs, name, hashes[j], selector);
    }
    if selector.Some? {
      InBucket(pubs, name, Hashes(pubs, name), selector.value);
      if h :| h in Hashes(pubs, name) && PublishedUnder(pubs, name, h, selector.value) {
        var j :| 0 <= j < |hashes| && hashes[j] == h;
        assert Admits(branches[j], selector);
      }
    }
  }

  lemma TwoVariantsTwoCandidates(pubs: seq<Publication>, name: string)
    requires name in Names(pubs) && |Sorted(Hashes(pubs, name))| != 1
    ensures |Candidates(Named(pubs, name))| > 1
  {
    var hashes := Sorted(Hashes(pubs, name));
    var i :| 0 <= i < |pubs| && pubs[i].name == name;
    assert pubs[i].hash in hashes;
    assert hashes[0] in Hashes(pubs, name) && hashes[1] in Hashes(pubs, name) && StrLt(hashes[0], hashes[1]);
    TwoPublications(pubs, name, hashes[0], hashes[1]);
    CandidateCount(Named(pubs, name));
  }

  lemma TwoPublications(pubs: seq<Publication>, name: string, h: string, g: string)
    requires h in Hashes(pubs, name) && g in Hashes(pubs, name) && h != g
    ensures |Named(pubs, name)| > 1
  {
    var j :| 0 <= j < |pubs| && pubs[j].name == name && pubs[j].hash == h;
    var k :| 0 <= k < |pubs| && pubs[k].name == name && pubs[k].hash == g;
    PickMember(pubs, name, Hashes(pubs, name), pubs[j]);
    PickMember(pubs, name, Hashes(pubs, name), pubs[k]);
  }

  lemma CandidateCount(pubs: seq<Publication>)
    ensures |Candidates(pubs)| == |pubs|
  {
    assert |multiset(Candidates(pubs))| == |multiset(Sessions(pubs))|;
    assert |multiset(Candidates(pubs))| == |Candidates(pubs)| && |multiset(Sessions(pubs))| == |Sessions(pubs)|;
  }

  /** The schema's reading of one slot and the resolver's. */
  lemma SlotAdmits(pubs: seq<Publication>, name: string, hash: Digest, selector: Option<string>)
    requires name in Names(pubs) && Plain(pubs, name)
    ensures var slot := SlotOf(pubs, name, hash);
            && Named(pubs, name) != []
            && (selector.Some? ==> (Admits(slot.inputSchema, selector) <==> Choose(slot, selector).Ok?))
            && (selector.None? ==> (Admits(slot.inputSchema, selector) <==>
                                      Choose(slot, selector).Ok? && !Asks(FieldsOf(Named(pubs, name)[0].schema))))
  {
    var hashes, ps := Sorted(Hashes(pubs, name)), Named(pubs, name);
    var i :| 0 <= i < |pubs| && pubs[i].name == name;
    PickMember(pubs, name, Hashes(pubs, name), pubs[i]);
    BucketPlain(pubs, name, Hashes(pubs, name));
    if |hashes| == 1 {
      SelectorAdmits(ps[0].schema, Candidates(ps), |Candidates(ps)| > 1, selector);
    } else {
      VariantsAdmit(pubs, name, selector);
      TwoVariantsTwoCandidates(pubs, name);
    }
  }

  /** The schema a slot publishes and the resolver accept the same selectors. */
  ghost predicate Agrees(pubs: seq<Publication>, name: string, hash: Digest) {
    forall selector :: Admits(SlotOf(pubs, name, hash).inputSchema, selector)
        <==> Resolve(name, ViewOf(pubs, hash), selector).Ok?
  }

  /** They do exactly when the name has several candidates, or its one schema does not itself require the selector. */
  lemma SchemaAgreesWithResolver(pubs: seq<Publication>, name: string, hash: Digest)
    requires name in Names(pubs) && Plain(pubs, name)
    ensures Named(pubs, name) != []
    ensures Agrees(pubs, name, hash) <==>
        |SlotOf(pubs, name, hash).sessionIds| != 1 || !Asks(FieldsOf(Named(pubs, name)[0].schema))
  {
    var slot := SlotOf(pubs, name, hash);
    FindSlot(name, pubs, hash);
    SlotAdmits(pubs, name, hash, None);
    assert Resolve(name, ViewOf(pubs, hash), None) == Choose(slot, None);
    if |slot.sessionIds| != 1 || !Asks(FieldsOf(Named(pubs, name)[0].schema)) {
      forall selector ensures Admits(slot.inputSchema, selector) <==> Resolve(name, ViewOf(pubs, hash), selector).Ok? {
        SlotAdmits(pubs, name, hash, selector);
      }
    }
  }

  // ---- Alternatives are exclusive ---------------------------------------------------------------------

  ghost predicate TwoAdmit(branches: seq<Json>, id: string) {
    exists i, j :: 0 <= i < j < |branches| && Admits(branches[i], Some(id)) && Admits(branches[j], Some(id))
  }

  /** The alternatives published for a name. */
  ghost function BranchesFor(pubs: seq<Publication>, name: string): seq<Json> {
    Branches(Buckets(pubs, name, Sorted(Hashes(pubs, name))))
  }

  ghost predicate PublishedTwice(pubs: seq<Publication>, name: string, id: string) {
    exists h, g :: h != g && PublishedUnder(pubs, name, h, id) && PublishedUnder(pubs, name, g, id)
  }

  lemma UnderHash(pubs: seq<Publication>, name: string, h: string, id: string)
    requires PublishedUnder(pubs, name, h, id)
    ensures h in Hashes(pubs, name)
  {
    var p :| p in pubs && p.name == name && p.hash == h && p.session == id;
    var i :| 0 <= i < |pubs| && pubs[i] == p;
  }

  lemma TwoBranchesTwoSchemas(pubs: seq<Publication>, name: string, id: string, branches: seq<Json>,
      hashes: seq<string>)
    requires |branches| == |hashes| && StrictlySortedStrings(hashes) && forall h ::
        h in Hashes(pubs, name) ==> h in hashes
    requires forall j :: 0 <= j < |branches| ==> (Admits(branches[j], Some(id))
        <==> PublishedUnder(pubs, name, hashes[j], id))
    ensures TwoAdmit(branches, id) <==> PublishedTwice(pubs, name, id)
  {
    if TwoAdmit(branches, id) {
      var i, j :| 0 <= i < j < |branches| && Admits(branches[i], Some(id)) && Admits(branches[j], Some(id));
      assert hashes[i] != hashes[j];
    }
    if PublishedTwice(pubs, name, id) {
      var h, g :| h != g && PublishedUnder(pubs, name, h, id) && PublishedUnder(pubs, name, g, id);
      UnderHash(pubs, name, h, id);
      UnderHash(pubs, name, g, id);
      var i :| 0 <= i < |hashes| && hashes[i] == h;
      var j :| 0 <= j < |hashes| && hashes[j] == g;
      assert Admits(branches[i], Some(id)) && Admits(branches[j], Some(id));
    }
  }

  /** Two alternatives admit the same session exactly when it published the name with two schemas. */
  lemma BranchesExclusiveIff(pubs: seq<Publication>, name: string, id: string)
    requires Plain(pubs, name)
    ensures TwoAdmit(BranchesFor(pubs, name), id) <==> PublishedTwice(pubs, name, id)
  {
    var hashes := Sorted(Hashes(pubs, name));
    var branches := BranchesFor(pubs, name);
    forall j | 0 <= j < |branches|
      ensures Admits(branches[j], Some(id)) <==> PublishedUnder(pubs, name, hashes[j], id)
    {
      BranchAdmits(pubs, name, hashes[j], Some(id));
    }
    TwoBranchesTwoSchemas(pubs, name, id, branches, hashes);
  }

  // ---- `oneOf` as exactly one ---------------------------------------------------------------------------

  /** The selector matches one alternative and no other. */
  ghost predicate ExactlyOne(branches: seq<Json>, selector: Option<string>) {
    exists i :: 0 <= i < |branches| && Admits(branches[i], selector)
      && forall j :: 0 <= j < |branches| && j != i ==> !Admits(branches[j], selector)
  }

  /** The published schema, its own alternatives read as JSON Schema reads `oneOf`. */
  ghost predicate Validates(pubs: seq<Publication>, name: string, hash: Digest, selector: Option<string>) {
    if |Sorted(Hashes(pubs, name))| == 1 then Admits(SlotOf(pubs, name, hash).inputSchema, selector)
    else ExactlyOne(BranchesFor(pubs, name), selector)
  }

  ghost predicate AgreesExactly(pubs: seq<Publication>, name: string, hash: Digest) {
    forall selector :: Validates(pubs, name, hash, selector) <==> Resolve(name, ViewOf(pubs, hash), selector).Ok?
  }

  lemma ExactlyOneIff(branches: seq<Json>, id: string)
    ensures ExactlyOne(branches, Some(id))
       <==> (exists i :: 0 <= i < |branches| && Admits(branches[i], Some(id))) && !TwoAdmit(branches, id)
  {
    if !TwoAdmit(branches, id) {
      if i :| 0 <= i < |branches| && Admits(branches[i], Some(id)) {
        forall j | 0 <= j < |branches| && j != i ensures !Admits(branches[j], Some(id)) {}
      }
    }
  }

  /** With variants: exactly one alternative matches a selector when it names a candidate that published one schema. */
  lemma VariantsValidate(pubs: seq<Publication>, name: string, selector: Option<string>)
    requires Plain(pubs, name)
    ensures ExactlyOne(BranchesFor(pubs, name), selector)
       <==> && selector.Some? && selector.value in Candidates(Named(pubs, name))
            && !PublishedTwice(pubs, name, selector.value)
  {
    var branches := BranchesFor(pubs, name);
    VariantsAdmit(pubs, name, selector);
    OneOfAdmits(branches, selector);
    if selector.Some? {
      ExactlyOneIff(branches, selector.value);
      BranchesExclusiveIff(pubs, name, selector.value);
    }
  }

  lemma TwiceIsCandidate(pubs: seq<Publication>, name: string, id: string)
    requires PublishedTwice(pubs, name, id)
    ensures id in Candidates(Named(pubs, name)) && |Sorted(Hashes(pubs, name))| != 1
  {
    var h, g :| h != g && PublishedUnder(pubs, name, h, id) && PublishedUnder(pubs, name, g, id);
    UnderHash(pubs, name, h, id);
    UnderHash(pubs, name, g, id);
    InBucket(pubs, name, Hashes(pubs, name), id);
    assert h in Sorted(Hashes(pubs, name)) && g in Sorted(Hashes(pubs, name));
  }

  /** Reading `oneOf` as exactly one, published schema and resolver accept the same selectors if and only if there are
      several candidates or the only schema does not itself require the selector, and no session published the name with
      two schemas. */
  lemma AgreesExactlyIff(pubs: seq<Publication>, name: string, hash: Digest)
    requires name in Names(pubs) && Plain(pubs, name)
    ensures Named(pubs, name) != []
    ensures AgreesExactly(pubs, name, hash)
       <==> && (|SlotOf(pubs, name, hash).sessionIds| != 1 || !Asks(FieldsOf(Named(pubs, name)[0].schema)))
            && forall id :: !PublishedTwice(pubs, name, id)
  {
    SchemaAgreesWithResolver(pubs, name, hash);
    if |Sorted(Hashes(pubs, name))| == 1 {
      forall id ensures !PublishedTwice(pubs, name, id) {
        if PublishedTwice(pubs, name, id) { TwiceIsCandidate(pubs, name, id); }
      }
      assert AgreesExactly(pubs, name, hash) <==> Agrees(pubs, name, hash);
    } else {
      VariantsAgreeIff(pubs, name, hash);
    }
  }

  lemma VariantsAgreeIff(pubs: seq<Publication>, name: string, hash: Digest)
    requires name in Names(pubs) && Plain(pubs, name) && |Sorted(Hashes(pubs, name))| != 1
    ensures |SlotOf(pubs, name, hash).sessionIds| != 1
    ensures AgreesExactly(pubs, name, hash) <==> forall id :: !PublishedTwice(pubs, name, id)
  {
    TwoVariantsTwoCandidates(pubs, name);
    FindSlot(name, pubs, hash);
    forall selector
      ensures Validates(pubs, name, hash, selector) <==>
        Resolve(name, ViewOf(pubs, hash), selector).Ok?
            && !(selector.Some? && PublishedTwice(pubs, name, selector.value))
    {
      VariantsValidate(pubs, name, selector);
    }
    if AgreesExactly(pubs, name, hash) {
      forall id ensures !PublishedTwice(pubs, name, id) {
        assert Validates(pubs, name, hash, Some(id)) <==> Resolve(name, ViewOf(pubs, hash), Some(id)).Ok?;
        if PublishedTwice(pubs, name, id) { TwiceIsCandidate(pubs, name, id); }
      }
    }
  }

  lemma {:induction false} CountTwo(pubs: seq<Publication>, name: string, id: string, i: nat, j: nat)
    requires i < j < |pubs| && pubs[i].name == pubs[j].name == name && pubs[i].session == pubs[j].session == id
    ensures Count(pubs, name, id) >= 2
  {
    var init := pubs[..|pubs| - 1];
    if j == |init| {
      CountPositive(init, name, id);
      assert init[i] == pubs[i];
    } else {
      CountTwo(init, name, id, i, j);
    }
  }

  lemma TwiceCountsTwo(pubs: seq<Publication>, name: string, id: string)
    requires PublishedTwice(pubs, name, id)
    ensures Count(pubs, name, id) >= 2
  {
    var h, g :| h != g && PublishedUnder(pubs, name, h, id) && PublishedUnder(pubs, name, g, id);
    var p :| p in pubs && p.name == name && p.hash == h && p.session == id;
    var q :| q in pubs && q.name == name && q.hash == g && q.session == id;
    var i :| 0 <= i < |pubs| && pubs[i] == p;
    var j :| 0 <= j < |pubs| && pubs[j] == q;
    if i < j { CountTwo(pubs, name, id, i, j); } else { CountTwo(pubs, name, id, j, i); }
  }

  /** A session that declares a name once is admitted by at most one alternative. */
  lemma DeclaredOnceExclusive(snapshot: seq<SessionRecord>, r: Reg, hash: Digest, name: string, id: string)
    requires IsSnapshot(snapshot, r) && Plain(Publications(snapshot, hash), name) && PublishedCount(r, id, name) <= 1
    ensures !TwoAdmit(BranchesFor(Publications(snapshot, hash), name), id)
  {
    var pubs := Publications(snapshot, hash);
    BranchesExclusiveIff(pubs, name, id);
    SnapshotCount(snapshot, r, hash, name, id);
    if PublishedTwice(pubs, name, id) { TwiceCountsTwo(pubs, name, id); }
  }

  const PLAIN_SCHEMA := Obj([])
  const TITLED_SCHEMA := Obj([Field("title", Str("t"))])

  function Offered(schema: Json, hash: Digest): Publication {
    Publication("tool", SchemaHash(hash, schema), schema, None, "s", "kind")
  }

  /** A session that publishes a name with two schemas is accepted by the resolver, and matches two alternatives. */
  lemma TwoSchemasDisagree(hash: Digest)
    requires Injective(hash)
    ensures !AgreesExactly([Offered(PLAIN_SCHEMA, hash), Offered(TITLED_SCHEMA, hash)], "tool", hash)
  {
    var p, q := Offered(PLAIN_SCHEMA, hash), Offered(TITLED_SCHEMA, hash);
    var pubs := [p, q];
    assert pubs[0].name in Names(pubs) && pubs[0] == p && pubs[1] == q;
    BucketsAreMeanings(hash, PLAIN_SCHEMA, TITLED_SCHEMA);
    assert p.hash != q.hash by {
      assert TITLED_SCHEMA.fields[0].key in Keys(TITLED_SCHEMA.fields);
      assert Keys(PLAIN_SCHEMA.fields) == {};
    }
    assert p in pubs && q in pubs;
    assert PublishedUnder(pubs, "tool", p.hash, "s") && PublishedUnder(pubs, "tool", q.hash, "s");
    assert PublishedTwice(pubs, "tool", "s");
    AgreesExactlyIff(pubs, "tool", hash);
  }

  const ASKING_SCHEMA := Obj([Field("required", Arr([Str("session_id")]))])

  lemma SingleNamed(p: Publication)
    ensures Named([p], p.name) == [p] && p.name in Names([p])
  {
    assert [p][0].name in Names([p]) && [p][0].hash in Hashes([p], p.name);
    assert [] + [p] == [p];
    PickSnoc([], p, p.name, Hashes([p], p.name));
  }

  lemma AskingSchemaAsks()
    ensures WellFormed(ASKING_SCHEMA) && FreeBranches(ASKING_SCHEMA) && Asks(FieldsOf(ASKING_SCHEMA))
  {
    var items := [Str("session_id")];
    assert ASKING_SCHEMA.fields[0] == Field("required", Arr(items));
    assert Get(ASKING_SCHEMA.fields, "required") == Some(Arr(items));
    assert items[0] == Str(SESSION_ID_ARGUMENT);
  }

  /** A client schema that itself requires the selector makes the published schema stricter than the resolver. */
  lemma AskingSchemaDisagrees(p: Publication, hash: Digest)
    requires p.schema == ASKING_SCHEMA
    ensures !Agrees([p], p.name, hash)
  {
    SingleNamed(p);
    AskingSchemaAsks();
    SchemaAgreesWithResolver([p], p.name, hash);
    CandidateCount(Named([p], p.name));
  }
}
