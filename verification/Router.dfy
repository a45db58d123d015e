/** The published view of the sessions' tools, its schemas, and the resolution of calls against it. */
module Router {
  import opened Basics
  import opened Json
  import opened Registry
  import opened Sorting

  const SESSION_ID_ARGUMENT := "session_id"
  const SELECTOR_TEXT := "Session-manager routing selector; removed before forwarding to the target tool"
  const VARIANTS_TEXT := "ClientProxy tool with session-specific schemas; select one of: "

  /** SHA-256 of the canonical text, as an argument: what matters about it is that it tells values apart. */
  type Digest = Json -> string

  ghost predicate Injective(hash: Digest) {
    forall a, b :: hash(a) == hash(b) ==> a == b
  }

  function SchemaHash(hash: Digest, schema: Json): string {
    hash(Canonicalize(schema))
  }

  /** Under an injective digest the schema buckets are exactly the classes of schemas that mean the same. */
  lemma BucketsAreMeanings(hash: Digest, a: Json, b: Json)
    requires Injective(hash) && WellFormed(a) && WellFormed(b)
    ensures SchemaHash(hash, a) == SchemaHash(hash, b) <==> Same(a, b)
  {
    CanonicalIffSame(a, b);
  }

  // ---- The selector added to a schema --------------------------------------------------------

  function FieldsOf(v: Json): seq<Field> {
    if v.Obj? then v.fields else []
  }

  function ItemsOf(v: Json): seq<Json> {
    if v.Arr? then v.items else []
  }

  /** The value of a key; null when it is absent. */
  function At(fields: seq<Field>, key: string): Json {
    var v := Get(fields, key);
    if v.Some? then v.value else Null
  }

  function Strings(ids: seq<string>): seq<Json> {
    seq(|ids|, i requires 0 <= i < |ids| => Str(ids[i]))
  }

  function SelectorProperty(ids: seq<string>): Json {
    Obj([Field("type", Str("string")), Field("description", Str(SELECTOR_TEXT))]
        + if ids == [] then [] else [Field("enum", Arr(Strings(ids)))])
  }

  function WithType(fields: seq<Field>): seq<Field> {
    if Get(fields, "type").None? then Put(fields, "type", Str("object")) else fields
  }

  function WithProperty(fields: seq<Field>, ids: seq<string>): seq<Field> {
    Put(fields, "properties", Obj(Put(FieldsOf(At(fields, "properties")), SESSION_ID_ARGUMENT, SelectorProperty(ids))))
  }

  function RequiredItems(fields: seq<Field>): seq<Json> {
    var items := ItemsOf(At(fields, "required"));
    if Str(SESSION_ID_ARGUMENT) in items then items else items + [Str(SESSION_ID_ARGUMENT)]
  }

  function WithRequired(fields: seq<Field>): seq<Field> {
    Put(fields, "required", Arr(RequiredItems(fields)))
  }

  /** `input_schema_with_session_selector`. */
  function Selector(schema: Json, ids: seq<string>, required: bool): Json {
    var fields := WithProperty(WithType(FieldsOf(schema)), ids);
    Obj(if required then WithRequired(fields) else fields)
  }

  // ---- What the sessions publish --------------------------------------------------------------

  /** One public descriptor of one active session. */
  datatype Publication = Publication(
    name: string, hash: string, schema: Json, description: Option<string>, session: string, kind: string)

  function Publish(rec: SessionRecord, tool: ToolDescriptor, hash: Digest): Publication {
    Publication(tool.name, SchemaHash(hash, tool.inputSchema), tool.inputSchema, tool.description, rec.sessionId,
        rec.kind)
  }

  /** The publications of one record, in the order of its tools. */
  function PublishedBy(rec: SessionRecord, tools: seq<ToolDescriptor>, hash: Digest): seq<Publication> {
    if tools == [] then []
    else
      var tool := tools[|tools| - 1];
      PublishedBy(rec, tools[..|tools| - 1], hash) + if tool.visibility.Public? then [Publish(rec, tool, hash)] else []
  }

  function Publications(snapshot: seq<SessionRecord>, hash: Digest): seq<Publication> {
    if snapshot == [] then []
    else
      var rec := snapshot[|snapshot| - 1];
      Publications(snapshot[..|snapshot| - 1], hash) + if rec.state.Active? then PublishedBy(rec, rec.tools, hash)
          else []
  }

  function Names(pubs: seq<Publication>): set<string> {
    set i | 0 <= i < |pubs| :: pubs[i].name
  }

  function Hashes(pubs: seq<Publication>, name: string): set<string> {
    set i | 0 <= i < |pubs| && pubs[i].name == name :: pubs[i].hash
  }

  /** The publications of `name` whose schema hash is in `hashes`, in order. */
  function Pick(pubs: seq<Publication>, name: string, hashes: set<string>): seq<Publication> {
    if pubs == [] then []
    else
      var p := pubs[|pubs| - 1];
      Pick(pubs[..|pubs| - 1], name, hashes) + if p.name == name && p.hash in hashes then [p] else []
  }

  function Sessions(pubs: seq<Publication>): seq<string> {
    seq(|pubs|, i requires 0 <= i < |pubs| => pubs[i].session)
  }

  function SessionBag(pubs: seq<Publication>): multiset<string> {
    multiset(Sessions(pubs))
  }

  function KindSet(pubs: seq<Publication>): set<string> {
    set i | 0 <= i < |pubs| :: pubs[i].kind
  }

  // ---- The view, declared ---------------------------------------------------------------------

  datatype ProxySlot = ProxySlot(
    kinds: seq<string>, toolName: string, publishedName: string, schemaHash: string,
    description: Option<string>, inputSchema: Json, sessionIds: seq<string>)

  function Join(parts: seq<string>, separator: string): string {
    if parts == [] then "" else if |parts| == 1 then parts[0]
    else Join(parts[..|parts| - 1], separator) + separator + parts[|parts| - 1]
  }

  ghost function Candidates(pubs: seq<Publication>): seq<string> {
    SortedBag(SessionBag(pubs))
  }

  /** One alternative of a schema with variants: the first schema of the bucket, for the bucket's sessions. */
  ghost function Branch(bucket: seq<Publication>): Json {
    if bucket == [] then Null else Selector(bucket[0].schema, Candidates(bucket), true)
  }

  ghost function Branches(buckets: seq<seq<Publication>>): seq<Json> {
    seq(|buckets|, i requires 0 <= i < |buckets| => Branch(buckets[i]))
  }

  /** The publications of one name, bucket by bucket. */
  function Buckets(pubs: seq<Publication>, name: string, hashes: seq<string>): seq<seq<Publication>> {
    seq(|hashes|, i requires 0 <= i < |hashes| => Pick(pubs, name, {hashes[i]}))
  }

  function OneOf(branches: seq<Json>): Json {
    Obj([Field("type", Str("object")), Field("oneOf", Arr(branches))])
  }

  /** The publications of one name. */
  function Named(pubs: seq<Publication>, name: string): seq<Publication> {
    Pick(pubs, name, Hashes(pubs, name))
  }

  /** A slot from its publications, also given bucket by bucket. */
  ghost function Slot(name: string, ps: seq<Publication>, hashes: seq<string>, buckets: seq<seq<Publication>>,
      hash: Digest): ProxySlot {
    var ids, kinds := Candidates(ps), Sorted(KindSet(ps));
    if |hashes| == 1 && ps != [] then
      ProxySlot(kinds, name, name, hashes[0], ps[0].description, Selector(ps[0].schema, ids, |ids| > 1), ids)
    else
      var schema := OneOf(Branches(buckets));
      ProxySlot(kinds, name, name, SchemaHash(hash, schema), Some(VARIANTS_TEXT + Join(ids, ", ")), schema, ids)
  }

  ghost function SlotOf(pubs: seq<Publication>, name: string, hash: Digest): ProxySlot {
    var hashes := Sorted(Hashes(pubs, name));
    Slot(name, Named(pubs, name), hashes, Buckets(pubs, name, hashes), hash)
  }

  ghost function ViewOf(pubs: seq<Publication>, hash: Digest): seq<ProxySlot> {
    var names := Sorted(Names(pubs));
    seq(|names|, i requires 0 <= i < |names| => SlotOf(pubs, names[i], hash))
  }

  // ---- The view, built ------------------------------------------------------------------------

  datatype GroupAccumulator = GroupAccumulator(description: Option<string>, inputSchema: Json, sessionIds: seq<string>,
      kinds: seq<string>)

  type Groups = map<string, map<string, GroupAccumulator>>

  ghost predicate AccOk(acc: GroupAccumulator, bucket: seq<Publication>) {
    && bucket != [] && acc.description == bucket[0].description && acc.inputSchema == bucket[0].schema
    && multiset(acc.sessionIds) == SessionBag(bucket)
    && Elements(acc.kinds) == KindSet(bucket)
  }

  ghost predicate GroupOk(group: map<string, GroupAccumulator>, pubs: seq<Publication>, name: string) {
    && group.Keys == Hashes(pubs, name)
    && forall h :: h in group ==> AccOk(group[h], Pick(pubs, name, {h}))
  }

  ghost predicate GroupsOk(groups: Groups, pubs: seq<Publication>) {
    && groups.Keys == Names(pubs)
    && forall name :: name in groups ==> GroupOk(groups[name], pubs, name)
  }

  lemma PickSnoc(pubs: seq<Publication>, p: Publication, name: string, hashes: set<string>)
    ensures p.name == name && p.hash in hashes ==> Pick(pubs + [p], name, hashes) == Pick(pubs, name, hashes) + [p]
    ensures !(p.name == name && p.hash in hashes) ==> Pick(pubs + [p], name, hashes) == Pick(pubs, name, hashes)
  {
    assert (pubs + [p])[..|pubs|] == pubs;
  }

  lemma NamesSnoc(pubs: seq<Publication>, p: Publication, name: string)
    ensures Names(pubs + [p]) == Names(pubs) + {p.name}
    ensures Hashes(pubs + [p], name) == Hashes(pubs, name) + if p.name == name then {p.hash} else {}
  {
    var all := pubs + [p];
    assert all[|pubs|] == p;
    forall x | x in Names(pubs) ensures x in Names(all) {
      var i :| 0 <= i < |pubs| && pubs[i].name == x;
      assert all[i] == pubs[i];
    }
    forall x | x in Hashes(pubs, name) ensures x in Hashes(all, name) {
      var i :| 0 <= i < |pubs| && pubs[i].name == name && pubs[i].hash == x;
      assert all[i] == pubs[i];
    }
  }

  lemma BucketSnoc(bucket: seq<Publication>, p: Publication)
    ensures SessionBag(bucket + [p]) == SessionBag(bucket) + multiset{p.session}
    ensures KindSet(bucket + [p]) == KindSet(bucket) + {p.kind}
  {
    var all := bucket + [p];
    assert Sessions(all) == Sessions(bucket) + [p.session];
    assert all[|bucket|] == p;
    forall k | k in KindSet(bucket) ensures k in KindSet(all) {
      var i :| 0 <= i < |bucket| && bucket[i].kind == k;
      assert all[i] == bucket[i];
    }
  }

  lemma {:induction false} PickMember(pubs: seq<Publication>, name: string, hashes: set<string>, p: Publication)
    ensures p in Pick(pubs, name, hashes) <==> p in pubs && p.name == name && p.hash in hashes
  {
    if pubs != [] {
      var init := pubs[..|pubs| - 1];
      PickMember(init, name, hashes, p);
      assert pubs == init + [pubs[|pubs| - 1]];
    }
  }

  /** A bucket is empty exactly when nothing was published under that name and hash. */
  lemma BucketEmptyIff(pubs: seq<Publication>, name: string, h: string)
    ensures Pick(pubs, name, {h}) == [] <==> h !in Hashes(pubs, name)
  {
    var bucket := Pick(pubs, name, {h});
    if h in Hashes(pubs, name) {
      var i :| 0 <= i < |pubs| && pubs[i].name == name && pubs[i].hash == h;
      PickMember(pubs, name, {h}, pubs[i]);
    }
    if bucket != [] {
      assert bucket[0] in bucket;
      PickMember(pubs, name, {h}, bucket[0]);
      var i :| 0 <= i < |pubs| && pubs[i] == bucket[0];
    }
  }

  /** The bucket's accumulator, created on first use, and the two pushes. */
  method AddToBucket(found: Option<GroupAccumulator>, p: Publication, ghost bucket: seq<Publication>)
      returns (acc: GroupAccumulator)
    requires if found.Some? then AccOk(found.value, bucket) else bucket == []
    ensures AccOk(acc, bucket + [p])
  {
    acc := if found.Some? then found.value else GroupAccumulator(p.description, p.schema, [], []);
    ghost var before := acc;
    assert multiset(before.sessionIds) == SessionBag(bucket) && Elements(before.kinds) == KindSet(bucket);
    acc := acc.(sessionIds := acc.sessionIds + [p.session]);
    if p.kind !in acc.kinds {
      acc := acc.(kinds := acc.kinds + [p.kind]);
    }
    assert Elements(acc.kinds) == Elements(before.kinds) + {p.kind};
    BucketSnoc(bucket, p);
  }

  /** `entry().or_insert_with()`. */
  method AddToGroup(group: map<string, GroupAccumulator>, p: Publication, ghost pubs: seq<Publication>)
      returns (r: map<string, GroupAccumulator>)
    requires GroupOk(group, pubs, p.name)
    ensures GroupOk(r, pubs + [p], p.name)
  {
    BucketEmptyIff(pubs, p.name, p.hash);
    var acc := AddToBucket(if p.hash in group then Some(group[p.hash]) else None, p, Pick(pubs, p.name, {p.hash}));
    r := group[p.hash := acc];
    GroupGrows(group, p, pubs, acc);
  }

  lemma GroupGrows(group: map<string, GroupAccumulator>, p: Publication, pubs: seq<Publication>, acc: GroupAccumulator)
    requires GroupOk(group, pubs, p.name) && AccOk(acc, Pick(pubs, p.name, {p.hash}) + [p])
    ensures GroupOk(group[p.hash := acc], pubs + [p], p.name)
  {
    NamesSnoc(pubs, p, p.name);
    forall h | h in group[p.hash := acc] ensures AccOk(group[p.hash := acc][h], Pick(pubs + [p], p.name, {h})) {
      BucketGrows(group, p, pubs, acc, h);
    }
  }

  lemma BucketGrows(group: map<string, GroupAccumulator>, p: Publication, pubs: seq<Publication>,
      acc: GroupAccumulator, h: string)
    requires AccOk(acc, Pick(pubs, p.name, {p.hash}) + [p])
    requires h in group ==> AccOk(group[h], Pick(pubs, p.name, {h}))
    requires h in group || h == p.hash
    ensures AccOk(group[p.hash := acc][h], Pick(pubs + [p], p.name, {h}))
  {
    PickSnoc(pubs, p, p.name, {h});
  }

  lemma OtherGroupUntouched(group: map<string, GroupAccumulator>, pubs: seq<Publication>, p: Publication, name: string)
    requires GroupOk(group, pubs, name) && p.name != name
    ensures GroupOk(group, pubs + [p], name)
  {
    NamesSnoc(pubs, p, name);
    assert Hashes(pubs + [p], name) == Hashes(pubs, name);
    forall h | h in group ensures Pick(pubs + [p], name, {h}) == Pick(pubs, name, {h}) {
      PickSnoc(pubs, p, name, {h});
    }
  }

  lemma EmptyGroup(pubs: seq<Publication>, name: string)
    requires name !in Names(pubs)
    ensures GroupOk(map[], pubs, name)
  {
    forall i | 0 <= i < |pubs| ensures pubs[i].name != name { assert pubs[i].name in Names(pubs); }
  }

  method AddTo(groups: Groups, p: Publication, ghost pubs: seq<Publication>) returns (r: Groups)
    requires GroupsOk(groups, pubs)
    ensures GroupsOk(r, pubs + [p])
  {
    if p.name !in groups { EmptyGroup(pubs, p.name); }
    var group := AddToGroup(if p.name in groups then groups[p.name] else map[], p, pubs);
    r := groups[p.name := group];
    NamesSnoc(pubs, p, p.name);
    forall name | name in r ensures GroupOk(r[name], pubs + [p], name) {
      if name != p.name { OtherGroupUntouched(groups[name], pubs, p, name); }
    }
  }

  lemma PublicationsSnoc(snapshot: seq<SessionRecord>, i: nat, hash: Digest)
    requires i < |snapshot|
    ensures snapshot[i].state.Active? ==>
              Publications(snapshot[..i + 1], hash) == Publications(snapshot[..i], hash)
                  + PublishedBy(snapshot[i], snapshot[i].tools, hash)
    ensures !snapshot[i].state.Active? ==> Publications(snapshot[..i + 1], hash) == Publications(snapshot[..i], hash)
  {
    assert snapshot[..i + 1][..i] == snapshot[..i];
  }

  method GroupTools(snapshot: seq<SessionRecord>, hash: Digest) returns (groups: Groups)
    ensures GroupsOk(groups, Publications(snapshot, hash))
  {
    groups := map[];
    var i := 0;
    while i < |snapshot|
      invariant 0 <= i <= |snapshot| && GroupsOk(groups, Publications(snapshot[..i], hash))
    {
      var rec := snapshot[i];
      PublicationsSnoc(snapshot, i, hash);
      if rec.state.Active? {
        groups := GroupRecord(groups, rec, hash, Publications(snapshot[..i], hash));
      }
      i := i + 1;
    }
    assert snapshot[..i] == snapshot;
  }

  method GroupRecord(groups: Groups, rec: SessionRecord, hash: Digest, ghost pubs: seq<Publication>) returns (r: Groups)
    requires GroupsOk(groups, pubs)
    ensures GroupsOk(r, pubs + PublishedBy(rec, rec.tools, hash))
  {
    r := groups;
    var j := 0;
    assert pubs + [] == pubs;
    while j < |rec.tools|
      invariant 0 <= j <= |rec.tools| && GroupsOk(r, pubs + PublishedBy(rec, rec.tools[..j], hash))
    {
      var tool := rec.tools[j];
      assert rec.tools[..j + 1][..j] == rec.tools[..j];
      ghost var before := PublishedBy(rec, rec.tools[..j], hash);
      if tool.visibility.Public? {
        r := AddTo(r, Publish(rec, tool, hash), pubs + before);
        assert pubs + (before + [Publish(rec, tool, hash)]) == pubs + before + [Publish(rec, tool, hash)];
      } else {
        assert before + [] == before;
      }
      j := j + 1;
    }
    assert rec.tools[..j] == rec.tools;
  }

  // Merging the buckets of one name.

  ghost predicate Merged(all: seq<Publication>, a: seq<Publication>, b: seq<Publication>) {
    SessionBag(all) == SessionBag(a) + SessionBag(b) && KindSet(all) == KindSet(a) + KindSet(b)
  }

  lemma MergedSnoc(all: seq<Publication>, a: seq<Publication>, b: seq<Publication>, p: Publication)
    requires Merged(all, a, b)
    ensures Merged(all + [p], a + [p], b) && Merged(all + [p], a, b + [p])
  {
    BagSnoc(all, a, b, p);
    BagSnoc(all, b, a, p);
    KindSnoc(all, a, b, p);
    KindSnoc(all, b, a, p);
  }

  lemma BagSnoc(all: seq<Publication>, a: seq<Publication>, b: seq<Publication>, p: Publication)
    requires SessionBag(all) == SessionBag(a) + SessionBag(b)
    ensures SessionBag(all + [p]) == SessionBag(a + [p]) + SessionBag(b)
  {
    BucketSnoc(all, p);
    BucketSnoc(a, p);
  }

  lemma KindSnoc(all: seq<Publication>, a: seq<Publication>, b: seq<Publication>, p: Publication)
    requires KindSet(all) == KindSet(a) + KindSet(b)
    ensures KindSet(all + [p]) == KindSet(a + [p]) + KindSet(b)
  {
    BucketSnoc(all, p);
    BucketSnoc(a, p);
  }

  lemma {:induction false} PickSplit(pubs: seq<Publication>, name: string, hashes: set<string>, h: string)
    requires h !in hashes
    ensures Merged(Pick(pubs, name, hashes + {h}), Pick(pubs, name, hashes), Pick(pubs, name, {h}))
  {
    if pubs != [] {
      var init, p := pubs[..|pubs| - 1], pubs[|pubs| - 1];
      PickSplit(init, name, hashes, h);
      assert pubs == init + [p];
      PickSnoc(init, p, name, hashes + {h});
      PickSnoc(init, p, name, hashes);
      PickSnoc(init, p, name, {h});
      MergedSnoc(Pick(init, name, hashes + {h}), Pick(init, name, hashes), Pick(init, name, {h}), p);
    }
  }

  lemma {:induction false} PickNothing(pubs: seq<Publication>, name: string)
    ensures Pick(pubs, name, {}) == []
  {
    if pubs != [] { PickNothing(pubs[..|pubs| - 1], name); }
  }

  method AddKinds(kinds: seq<string>, more: seq<string>) returns (r: seq<string>)
    requires Distinct(kinds)
    ensures Distinct(r) && Elements(r) == Elements(kinds) + Elements(more)
  {
    r := kinds;
    var i := 0;
    while i < |more|
      invariant 0 <= i <= |more| && Distinct(r) && Elements(r) == Elements(kinds) + Elements(more[..i])
    {
      assert more[..i + 1] == more[..i] + [more[i]];
      ghost var before := r;
      if more[i] !in r {
        r := r + [more[i]];
      }
      assert Elements(r) == Elements(before) + {more[i]};
      i := i + 1;
    }
    assert more[..i] == more;
  }

  lemma {:induction false} DistinctBag(s: seq<string>)
    requires Distinct(s)
    ensures multiset(s) == multiset(Elements(s))
  {
    if s != [] {
      var init, last := s[..|s| - 1], s[|s| - 1];
      assert s == init + [last];
      DistinctBag(init);
      assert Elements(s) == Elements(init) + {last};
      assert last !in init;
    }
  }

  /** A list without repeats, sorted, is its set sorted. */
  method SortDistinct(s: seq<string>) returns (r: seq<string>)
    requires Distinct(s)
    ensures r == Sorted(Elements(s))
  {
    r := SortStrings(s);
    DistinctBag(s);
    SortedOnce(r, Elements(s));
    SortedUnique(r, Sorted(Elements(s)));
  }

  /** The loop over the variants of one name. */
  method MergeBuckets(variants: seq<GroupAccumulator>, ghost hashes: seq<string>, name: string,
      ghost pubs: seq<Publication>)
      returns (ids: seq<string>, kinds: seq<string>)
    requires |variants| == |hashes| && Distinct(hashes) && Elements(hashes) == Hashes(pubs, name)
    requires forall i :: 0 <= i < |hashes| ==> AccOk(variants[i], Pick(pubs, name, {hashes[i]}))
    ensures Collected(ids, kinds, Named(pubs, name)) && Distinct(kinds)
  {
    ids, kinds := [], [];
    PickNothing(pubs, name);
    assert Elements(hashes[..0]) == {};
    for k := 0 to |variants|
      invariant Distinct(kinds) && Collected(ids, kinds, Pick(pubs, name, Elements(hashes[..k])))
    {
      var more := AddKinds(kinds, variants[k].kinds);
      CollectedNext(ids, kinds, more, variants[k], hashes, k, name, pubs);
      ids, kinds := ids + variants[k].sessionIds, more;
    }
    assert hashes[..|variants|] == hashes;
  }

  ghost predicate Collected(ids: seq<string>, kinds: seq<string>, ps: seq<Publication>) {
    multiset(ids) == SessionBag(ps) && Elements(kinds) == KindSet(ps)
  }

  lemma CollectedNext(ids: seq<string>, kinds: seq<string>, more: seq<string>, acc: GroupAccumulator,
      hashes: seq<string>, k: nat, name: string, pubs: seq<Publication>)
    requires k < |hashes| && Distinct(hashes) && AccOk(acc, Pick(pubs, name, {hashes[k]}))
    requires Collected(ids, kinds, Pick(pubs, name, Elements(hashes[..k])))
    requires Elements(more) == Elements(kinds) + Elements(acc.kinds)
    ensures Collected(ids + acc.sessionIds, more, Pick(pubs, name, Elements(hashes[..k + 1])))
  {
    assert hashes[k] !in Elements(hashes[..k]);
    PickSplit(pubs, name, Elements(hashes[..k]), hashes[k]);
    assert Elements(hashes[..k + 1]) == Elements(hashes[..k]) + {hashes[k]};
    assert multiset(ids + acc.sessionIds) == multiset(ids) + multiset(acc.sessionIds);
  }

  method BuildBranch(acc: GroupAccumulator, ghost bucket: seq<Publication>) returns (branch: Json)
    requires AccOk(acc, bucket)
    ensures branch == Branch(bucket)
  {
    var ids := SortStrings(acc.sessionIds);
    branch := Selector(acc.inputSchema, ids, true);
  }

  method BuildBranches(variants: seq<GroupAccumulator>, ghost buckets: seq<seq<Publication>>)
      returns (branches: seq<Json>)
    requires |variants| == |buckets| && forall i :: 0 <= i < |buckets| ==> AccOk(variants[i], buckets[i])
    ensures branches == Branches(buckets)
  {
    branches := [];
    for k := 0 to |variants|
      invariant branches == Branches(buckets)[..k]
    {
      var branch := BuildBranch(variants[k], buckets[k]);
      ghost var all := Branches(buckets);
      assert all[k] == branch && all[..k + 1] == all[..k] + [all[k]];
      branches := branches + [branch];
    }
  }

  lemma SortedIsDistinct(s: set<string>)
    ensures Distinct(Sorted(s)) && Elements(Sorted(s)) == s
  {
  }

  /** One slot from the sorted variants of its name. */
  method BuildSlot(name: string, hashes: seq<string>, variants: seq<GroupAccumulator>, merged: seq<string>,
      mergedKinds: seq<string>,
      hash: Digest, ghost ps: seq<Publication>, ghost buckets: seq<seq<Publication>>) returns (slot: ProxySlot)
    requires |variants| == |buckets| == |hashes| && forall i :: 0 <= i < |buckets| ==> AccOk(variants[i], buckets[i])
    requires multiset(merged) == SessionBag(ps) && Distinct(mergedKinds) && Elements(mergedKinds) == KindSet(ps)
    requires |hashes| == 1 ==> buckets[0] == ps
    ensures slot == Slot(name, ps, hashes, buckets, hash)
  {
    var ids := SortStrings(merged);
    var kinds := SortDistinct(mergedKinds);
    if |variants| == 1 {
      assert AccOk(variants[0], ps);
      slot := ProxySlot(kinds, name, name, hashes[0], variants[0].description,
          Selector(variants[0].inputSchema, ids, |ids| > 1), ids);
    } else {
      var branches := BuildBranches(variants, buckets);
      var schema := OneOf(branches);
      slot := ProxySlot(kinds, name, name, SchemaHash(hash, schema), Some(VARIANTS_TEXT + Join(ids, ", ")), schema,
          ids);
    }
  }

  lemma SoleBucket(pubs: seq<Publication>, name: string, hashes: seq<string>)
    requires Elements(hashes) == Hashes(pubs, name) && |hashes| == 1
    ensures Buckets(pubs, name, hashes)[0] == Named(pubs, name)
  {
    assert Elements(hashes) == {hashes[0]} by { assert hashes[0] in Elements(hashes); }
  }

  /** The buckets in the order of their hashes. */
  method Variants(group: map<string, GroupAccumulator>, hashes: seq<string>, name: string, ghost pubs: seq<Publication>)
      returns (variants: seq<GroupAccumulator>)
    requires GroupOk(group, pubs, name) && Elements(hashes) == group.Keys
    ensures |variants| == |hashes| == |Buckets(pubs, name, hashes)|
    ensures forall i :: 0 <= i < |hashes| ==> AccOk(variants[i], Buckets(pubs, name, hashes)[i])
  {
    assert forall i :: 0 <= i < |hashes| ==> hashes[i] in Elements(hashes);
    variants := seq(|hashes|, i requires 0 <= i < |hashes| => group[hashes[i]]);
  }

  method SlotFor(name: string, group: map<string, GroupAccumulator>, hash: Digest, ghost pubs: seq<Publication>)
      returns (slot: ProxySlot)
    requires GroupOk(group, pubs, name)
    ensures slot == SlotOf(pubs, name, hash)
  {
    var hashes := SortSet(group.Keys);
    SortedIsDistinct(group.Keys);
    var variants := Variants(group, hashes, name, pubs);
    var ids, kinds := MergeBuckets(variants, hashes, name, pubs);
    if |hashes| == 1 { SoleBucket(pubs, name, hashes); }
    slot := BuildSlot(name, hashes, variants, ids, kinds, hash, Named(pubs, name), Buckets(pubs, name, hashes));
  }

  /** `build_proxy_view`: whatever order the snapshot and the maps are in, the declared view of what was published. */
  method BuildProxyView(snapshot: seq<SessionRecord>, hash: Digest) returns (view: seq<ProxySlot>)
    ensures view == ViewOf(Publications(snapshot, hash), hash)
  {
    var groups := GroupTools(snapshot, hash);
    ghost var pubs := Publications(snapshot, hash);
    var names := SortSet(groups.Keys);
    ghost var all := ViewOf(pubs, hash);
    view := [];
    for k := 0 to |names|
      invariant |names| == |all| && view == all[..k]
    {
      assert names[k] in groups;
      ViewAt(pubs, hash, k);
      var slot := SlotFor(names[k], groups[names[k]], hash, pubs);
      view := view + [slot];
    }
  }

  lemma ViewAt(pubs: seq<Publication>, hash: Digest, k: nat)
    requires k < |Sorted(Names(pubs))|
    ensures |ViewOf(pubs, hash)| == |Sorted(Names(pubs))|
        && ViewOf(pubs, hash)[k] == SlotOf(pubs, Sorted(Names(pubs))[k], hash)
  {
  }

  // ---- Resolution -----------------------------------------------------------------------------

  datatype ResolvedCall = ResolvedCall(sessionId: string, toolName: string)

  datatype ResolveError =
    | NotProxyTool
    | SessionToolMismatch(toolName: string, sessionId: string)
    | SessionRequired(toolName: string, sessionIds: seq<string>)

  /** The first slot published under a name. */
  function Find(name: string, view: seq<ProxySlot>): Option<ProxySlot> {
    if view == [] then None else if view[0].publishedName == name then Some(view[0]) else Find(name, view[1..])
  }

  function Choose(slot: ProxySlot, requested: Option<string>): Result<ResolvedCall, ResolveError> {
    match requested
    case Some(id) =>
      if id in slot.sessionIds then Ok(ResolvedCall(id, slot.toolName)) else Err(SessionToolMismatch(slot.toolName, id))
    case None =>
      if |slot.sessionIds| == 1 then Ok(ResolvedCall(slot.sessionIds[0], slot.toolName))
      else Err(SessionRequired(slot.toolName, slot.sessionIds))
  }

  /** `resolve_published`. */
  function Resolve(name: string, view: seq<ProxySlot>, requested: Option<string>): Result<ResolvedCall, ResolveError> {
    var slot := Find(name, view);
    if slot.Some? then Choose(slot.value, requested) else Err(NotProxyTool)
  }

  datatype TargetError = UnknownSession | SessionNotActive | ToolNotPublished

  /** `validate_explicit_target`. */
  function ValidateTarget(r: Reg, sessionId: string, toolName: string): Result<(), TargetError> {
    if sessionId !in r.sessions then Err(UnknownSession)
    else if !r.sessions[sessionId].state.Active? then Err(SessionNotActive)
    else if exists t :: t in r.sessions[sessionId].tools && t.name == toolName && t.visibility.Public? then Ok(())
    else Err(ToolNotPublished)
  }
}
