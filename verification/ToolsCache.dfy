/** The persistent tools cache: a lazily evicted map with a file behind it, and the log it stands for. */
module ToolsCache {
  import opened Basics
  import opened Registry

  /** Kind and configuration id. */
  type Key = (string, string)

  datatype Entry = Entry(tools: seq<ToolDescriptor>, lastSeen: nat)

  datatype CacheEntry = CacheEntry(kind: string, configId: string, tools: seq<ToolDescriptor>, lastSeen: nat)

  function KeyOf(e: CacheEntry): Key {
    (e.kind, e.configId)
  }

  predicate KeyLt(a: Key, b: Key) {
    StrLt(a.0, b.0) || (a.0 == b.0 && StrLt(a.1, b.1))
  }

  lemma KeyLtTotal(a: Key, b: Key)
    ensures a != b ==> KeyLt(a, b) || KeyLt(b, a)
    ensures !(KeyLt(a, b) && KeyLt(b, a))
  {
    StrLeTotal(a.0, b.0);
    StrLeTotal(a.1, b.1);
  }

  lemma KeyLtTransitive(a: Key, b: Key, c: Key)
    requires KeyLt(a, b) && KeyLt(b, c)
    ensures KeyLt(a, c)
  {
    if StrLe(a.0, b.0) && StrLe(b.0, c.0) { StrLeTransitive(a.0, b.0, c.0); }
    if StrLe(a.1, b.1) && StrLe(b.1, c.1) { StrLeTransitive(a.1, b.1, c.1); }
    StrLeTotal(a.0, b.0);
    StrLeTotal(a.1, b.1);
  }

  // ---- Sorted listings --------------------------------------------------------------------

  predicate SortedEntries(s: seq<CacheEntry>) {
    forall i, j :: 0 <= i < j < |s| ==> KeyLt(KeyOf(s[i]), KeyOf(s[j]))
  }

  /** Exactly the map's entries, sorted by kind and configuration. */
  predicate IsListing(s: seq<CacheEntry>, m: map<Key, Entry>) {
    && SortedEntries(s)
    && (forall i :: 0 <= i < |s| ==> KeyOf(s[i]) in m && m[KeyOf(s[i])] == Entry(s[i].tools, s[i].lastSeen))
    && (forall k :: k in m ==> CacheEntry(k.0, k.1, m[k].tools, m[k].lastSeen) in s)
  }

  /** What a listing stands for, as `load_from_disk` collects it: the last entry of a key wins. */
  function MapOf(s: seq<CacheEntry>): map<Key, Entry> {
    if s == [] then map[]
    else MapOf(s[..|s| - 1])[KeyOf(s[|s| - 1]) := Entry(s[|s| - 1].tools, s[|s| - 1].lastSeen)]
  }

  lemma {:induction false} MapOfSorted(s: seq<CacheEntry>, k: Key)
    requires SortedEntries(s)
    ensures k in MapOf(s) <==> exists i :: 0 <= i < |s| && KeyOf(s[i]) == k
    ensures forall i :: 0 <= i < |s| && KeyOf(s[i]) == k ==>
        k in MapOf(s) && MapOf(s)[k] == Entry(s[i].tools, s[i].lastSeen)
  {
    if s != [] {
      var init := s[..|s| - 1];
      MapOfSorted(init, k);
      forall i | 0 <= i < |init| ensures KeyOf(s[i]) != KeyOf(s[|s| - 1]) {
        KeyLtTotal(KeyOf(s[i]), KeyOf(s[|s| - 1]));
      }
      if i :| 0 <= i < |init| && KeyOf(init[i]) == k { assert KeyOf(s[i]) == k; }
      if i :| 0 <= i < |s| && KeyOf(s[i]) == k { if i < |init| { assert KeyOf(init[i]) == k; } }
    }
  }

  /** Writing the cache out and reading it back gives the same cache. */
  lemma ListingRoundTrip(s: seq<CacheEntry>, m: map<Key, Entry>)
    requires IsListing(s, m)
    ensures MapOf(s) == m
  {
    forall k ensures k in MapOf(s) <==> k in m {
      MapOfSorted(s, k);
      if k in m {
        var e := CacheEntry(k.0, k.1, m[k].tools, m[k].lastSeen);
        assert e in s && KeyOf(e) == k;
      }
    }
    forall k | k in m ensures MapOf(s)[k] == m[k] {
      MapOfSorted(s, k);
    }
  }

  method InsertByKey(s: seq<CacheEntry>, e: CacheEntry) returns (r: seq<CacheEntry>)
    requires SortedEntries(s) && forall i :: 0 <= i < |s| ==> KeyOf(s[i]) != KeyOf(e)
    ensures SortedEntries(r) && exists n :: 0 <= n <= |s| && r == s[..n] + [e] + s[n..]
  {
    var n := 0;
    while n < |s| && KeyLt(KeyOf(s[n]), KeyOf(e))
      invariant 0 <= n <= |s|
      invariant forall i :: 0 <= i < n ==> KeyLt(KeyOf(s[i]), KeyOf(e))
    {
      n := n + 1;
    }
    r := s[..n] + [e] + s[n..];
    forall j | n <= j < |s| ensures KeyLt(KeyOf(e), KeyOf(s[j])) {
      KeyLtTotal(KeyOf(s[n]), KeyOf(e));
      if j > n { KeyLtTransitive(KeyOf(e), KeyOf(s[n]), KeyOf(s[j])); }
    }
  }

  /** The map's values in map order, sorted. */
  method List(m: map<Key, Entry>) returns (out: seq<CacheEntry>)
    ensures IsListing(out, m)
  {
    out := [];
    var rest := m.Keys;
    ghost var done := map[];
    while rest != {}
      invariant rest <= m.Keys && done == m - rest && IsListing(out, done)
      decreases |rest|
    {
      var k :| k in rest;
      rest := rest - {k};
      var e := CacheEntry(k.0, k.1, m[k].tools, m[k].lastSeen);
      ghost var before := out;
      out := InsertByKey(out, e);
      ListingGrows(before, done, out, e);
      done := m - rest;
      assert done == (m - (rest + {k}))[k := m[k]];
    }
    assert m - {} == m;
  }

  lemma ListingGrows(s: seq<CacheEntry>, m: map<Key, Entry>, r: seq<CacheEntry>, e: CacheEntry)
    requires IsListing(s, m) && KeyOf(e) !in m && SortedEntries(r)
    requires exists n :: 0 <= n <= |s| && r == s[..n] + [e] + s[n..]
    ensures IsListing(r, m[KeyOf(e) := Entry(e.tools, e.lastSeen)])
  {
    var n :| 0 <= n <= |s| && r == s[..n] + [e] + s[n..];
    var t := m[KeyOf(e) := Entry(e.tools, e.lastSeen)];
    forall i | 0 <= i < |r| ensures KeyOf(r[i]) in t && t[KeyOf(r[i])] == Entry(r[i].tools, r[i].lastSeen) {
      if i < n { assert r[i] == s[i]; } else if i > n { assert r[i] == s[i - 1]; }
    }
    forall k | k in t ensures CacheEntry(k.0, k.1, t[k].tools, t[k].lastSeen) in r {
      if k == KeyOf(e) {
        assert r[n] == e;
      } else {
        StillListed(s, r, n, e, CacheEntry(k.0, k.1, m[k].tools, m[k].lastSeen));
      }
    }
  }

  lemma StillListed(s: seq<CacheEntry>, r: seq<CacheEntry>, n: nat, e: CacheEntry, x: CacheEntry)
    requires n <= |s| && r == s[..n] + [e] + s[n..] && x in s
    ensures x in r
  {
    var i :| 0 <= i < |s| && s[i] == x;
    if i < n { assert r[i] == x; } else { assert r[i + 1] == x; }
  }

  // ---- The store --------------------------------------------------------------------------

  /** Memory, what the file stands for, and how often the notifier hook ran. */
  datatype Cache = Cache(entries: map<Key, Entry>, disk: map<Key, Entry>, notified: nat)

  /** Entries no older than the cache's life. */
  function Alive(m: map<Key, Entry>, now: nat, life: nat): map<Key, Entry> {
    map k | k in m && now <= m[k].lastSeen + life :: m[k]
  }

  /** `evict_expired`. */
  function Evicted(c: Cache, now: nat, life: nat, persists: bool): Cache {
    var alive := Alive(c.entries, now, life);
    if alive == c.entries then c else Cache(alive, if persists then alive else c.disk, c.notified + 1)
  }

  predicate ChangesTools(c: Cache, key: Key, tools: seq<ToolDescriptor>) {
    key !in c.entries || c.entries[key].tools != tools
  }

  /** `upsert`: two readings of the clock, one for eviction and one for the entry. */
  function Upserted(c: Cache, key: Key, tools: seq<ToolDescriptor>, evictAt: nat, seenAt: nat, life: nat,
      persists: bool): Cache {
    var e := Evicted(c, evictAt, life, persists);
    var changed := ChangesTools(e, key, tools);
    var entries := e.entries[key := Entry(tools, seenAt)];
    Cache(entries, if (changed || e != c) && persists then entries else e.disk, e.notified + if changed then 1 else 0)
  }

  /** `reset_all` and `reset_by_config_id`: what is dropped. */
  datatype Reset = Everything | Config(configId: string)

  predicate Hits(r: Reset, key: Key) {
    r.Everything? || r.configId == key.1
  }

  function Remaining(m: map<Key, Entry>, r: Reset): map<Key, Entry> {
    map k | k in m && !Hits(r, k) :: m[k]
  }

  function WasReset(c: Cache, r: Reset, persists: bool): Cache {
    var entries := Remaining(c.entries, r);
    if entries == c.entries then c else Cache(entries, if persists then entries else c.disk, c.notified + 1)
  }

  class ToolsCacheStore {
    const enabled: bool
    const life: nat
    var entries: map<Key, Entry>
    /** The cache file: what was last written. */
    var file: seq<CacheEntry>
    /** Runs of the notifier hook. */
    var notified: nat

    ghost function View(): Cache
      reads this
    {
      Cache(entries, MapOf(file), notified)
    }

    /** `load_or_empty`. */
    constructor (enabled: bool, life: nat, file: seq<CacheEntry>)
      ensures this.enabled == enabled && this.life == life && this.file == file && notified == 0
      ensures entries == if enabled then MapOf(file) else map[]
    {
      this.enabled, this.life, this.file, this.notified := enabled, life, file, 0;
      this.entries := if enabled then MapOf(file) else map[];
    }

    method Persist(persists: bool)
      modifies this`file
      ensures View() == if persists then old(View()).(disk := entries) else old(View())
    {
      var out := List(entries);
      ListingRoundTrip(out, entries);
      if persists { file := out; }
    }

    method EvictExpired(now: nat, persists: bool) returns (removedAny: bool)
      modifies this
      ensures View() == Evicted(old(View()), now, life, persists)
      ensures removedAny <==> View() != old(View())
    {
      var alive := Alive(entries, now, life);
      removedAny := alive != entries;
      if removedAny {
        entries := alive;
        Persist(persists);
        notified := notified + 1;
      }
    }

    method Upsert(kind: string, configId: string, tools: seq<ToolDescriptor>, evictAt: nat, seenAt: nat, persists: bool)
      returns (changed: bool)
      modifies this
      ensures View() == if enabled then Upserted(old(View()), (kind, configId), tools, evictAt, seenAt, life, persists)
          else old(View())
      ensures changed <==> enabled && ChangesTools(Evicted(old(View()), evictAt, life, persists), (kind, configId),
          tools)
    {
      if !enabled { return false; }
      var evicted := EvictExpired(evictAt, persists);
      var key := (kind, configId);
      changed := key !in entries || entries[key].tools != tools;
      entries := entries[key := Entry(tools, seenAt)];
      if changed || evicted { Persist(persists); }
      if changed { notified := notified + 1; }
    }

    method ListAll(now: nat, persists: bool) returns (out: seq<CacheEntry>)
      modifies this
      ensures View() == if enabled then Evicted(old(View()), now, life, persists) else old(View())
      ensures if enabled then IsListing(out, Alive(old(entries), now, life)) else out == []
      ensures forall i, j :: 0 <= i < j < |out| ==>
        StrLt(out[i].kind, out[j].kind) || (out[i].kind == out[j].kind && StrLt(out[i].configId, out[j].configId))
    {
      if !enabled { return []; }
      var _ := EvictExpired(now, persists);
      out := List(entries);
    }

    method ResetCache(r: Reset, persists: bool) returns (removed: nat)
      modifies this
      ensures View() == if enabled then WasReset(old(View()), r, persists) else old(View())
      ensures removed > 0 <==> View() != old(View())
    {
      if !enabled { return 0; }
      var remaining := Remaining(entries, r);
      assert remaining.Keys <= entries.Keys;
      SubsetSize(remaining.Keys, entries.Keys);
      removed := |entries.Keys| - |remaining.Keys|;
      if removed > 0 {
        entries := remaining;
        Persist(persists);
        notified := notified + 1;
      }
    }
  }

  // ---- The log it stands for -----------------------------------------------------------------

  /** An operation with its readings of the clock, and whether the file write it may make succeeds. */
  datatype Op =
    | Upsert(key: Key, tools: seq<ToolDescriptor>, evictAt: nat, seenAt: nat, persists: bool)
    | Read(at: nat, persists: bool)
    | Clear(reset: Reset, at: nat, persists: bool)
    | Restart(at: nat)

  function Begins(op: Op): nat {
    if op.Upsert? then op.evictAt else op.at
  }

  function Ends(op: Op): nat {
    if op.Upsert? then op.seenAt else op.at
  }

  function Now(log: seq<Op>): nat {
    if log == [] then 0 else Ends(log[|log| - 1])
  }

  /** A sequential run under a clock that does not go back. */
  predicate InTime(log: seq<Op>) {
    log == [] || (var n := |log| - 1; InTime(log[..n]) && Now(log[..n]) <= Begins(log[n]) <= Ends(log[n]))
  }

  function Did(c: Cache, op: Op, life: nat): Cache {
    match op
    case Upsert(key, tools, evictAt, seenAt, persists) => Upserted(c, key, tools, evictAt, seenAt, life, persists)
    case Read(at, persists) => Evicted(c, at, life, persists)
    case Clear(r, _, persists) => WasReset(c, r, persists)
    case Restart(_) => Cache(c.disk, c.disk, 0)
  }

  /** The cache after the run, from an empty cache. */
  function After(log: seq<Op>, life: nat): Cache {
    if log == [] then Cache(map[], map[], 0) else Did(After(log[..|log| - 1], life), log[|log| - 1], life)
  }

  /** Declaratively: the latest upsert of the key that no matching reset follows. */
  function Latest(log: seq<Op>, key: Key): Option<Entry> {
    if log == [] then None
    else
      var before := Latest(log[..|log| - 1], key);
      match log[|log| - 1]
      case Upsert(k, tools, _, seenAt, _) => if k == key then Some(Entry(tools, seenAt)) else before
      case Clear(r, _, _) => if Hits(r, key) then None else before
      case _ => before
  }

  /** What the log says is visible for a key at a time. */
  function Visible(log: seq<Op>, key: Key, now: nat, life: nat): Option<Entry> {
    var e := Latest(log, key);
    if e.Some? && now <= e.value.lastSeen + life then e else None
  }

  predicate NoRestart(log: seq<Op>) {
    forall i :: 0 <= i < |log| ==> !log[i].Restart?
  }

  /** Every write succeeded. */
  predicate AllPersisted(log: seq<Op>) {
    forall i :: 0 <= i < |log| ==> log[i].Restart? || log[i].persists
  }

  predicate SeenBy(m: map<Key, Entry>, now: nat) {
    forall k :: k in m ==> m[k].lastSeen <= now
  }

  // ---- Memory is the log ------------------------------------------------------------------------

  /** What memory holds for the key is the log's latest, and what is missing has expired. */
  predicate Remembers(e: Option<Entry>, latest: Option<Entry>, now: nat, life: nat) {
    if e.Some? then latest == e && e.value.lastSeen <= now else latest.Some? ==> latest.value.lastSeen + life < now
  }

  function At(m: map<Key, Entry>, k: Key): Option<Entry> {
    if k in m then Some(m[k]) else None
  }

  /** Evicting leaves what is not too old, entry by entry. */
  lemma EvictedAt(c: Cache, now: nat, life: nat, persists: bool, k: Key)
    ensures At(Evicted(c, now, life, persists).entries, k)
         == if k in c.entries && now <= c.entries[k].lastSeen + life then At(c.entries, k) else None
  {
  }

  lemma DidAt(c: Cache, op: Op, life: nat, k: Key)
    requires !op.Restart?
    ensures var e := At(Did(c, op, life).entries, k);
      match op
      case Upsert(key, tools, evictAt, seenAt, persists) =>
        e == if k == key then Some(Entry(tools, seenAt)) else At(Evicted(c, evictAt, life, persists).entries, k)
      case Read(at, persists) => e == At(Evicted(c, at, life, persists).entries, k)
      case Clear(r, _, _) => e == if Hits(r, k) then None else At(c.entries, k)
  {
  }

  /** In every run within one life of the process, whatever becomes of the writes. */
  lemma {:induction false} MemoryIsLog(log: seq<Op>, life: nat, k: Key)
    requires InTime(log) && NoRestart(log)
    ensures Remembers(At(After(log, life).entries, k), Latest(log, k), Now(log), life)
  {
    if log != [] {
      var init, op := log[..|log| - 1], log[|log| - 1];
      MemoryIsLog(init, life, k);
      DidAt(After(init, life), op, life, k);
      match op {
        case Upsert(_, _, evictAt, _, persists) => EvictedAt(After(init, life), evictAt, life, persists, k);
        case Read(at, persists) => EvictedAt(After(init, life), at, life, persists, k);
        case Clear(_, _, _) =>
      }
    }
  }

  /** The cache is its log: after any sequential run within one life of the process, whether or not its writes succeed,
      what `list_all` returns at any later time is exactly the latest upsert of every key that no matching reset
      followed and that is not too old. */
  lemma CacheRefinesLog(log: seq<Op>, life: nat, now: nat, k: Key)
    requires InTime(log) && NoRestart(log) && Now(log) <= now
    ensures At(Alive(After(log, life).entries, now, life), k) == Visible(log, k, now, life)
  {
    MemoryIsLog(log, life, k);
  }

  /** Quiet when nothing changes: after any run, an upsert of the tools that are already there, when nothing has
      expired, neither writes nor announces; it only moves the time. */
  lemma RepeatedUpsertIsQuiet(log: seq<Op>, life: nat, key: Key, evictAt: nat, seenAt: nat, persists: bool)
    requires var c := After(log, life);
      key in c.entries && forall k :: k in c.entries ==> evictAt <= c.entries[k].lastSeen + life
    ensures var c := After(log, life);
      After(log + [Upsert(key, c.entries[key].tools, evictAt, seenAt, persists)], life)
        == c.(entries := c.entries[key := c.entries[key].(lastSeen := seenAt)])
  {
    var c := After(log, life);
    assert (log + [Upsert(key, c.entries[key].tools, evictAt, seenAt, persists)])[..|log|] == log;
    assert Alive(c.entries, evictAt, life) == c.entries;
  }

  /** A reset by configuration drops the entries of that configuration, of every kind, and no other; a full reset drops
      all; and both are written and announced exactly when they drop something. */
  lemma ResetDropsExactly(log: seq<Op>, life: nat, configId: string, at: nat, persists: bool)
    ensures var c := After(log, life);
      var some, all := After(log + [Clear(Config(configId), at, persists)], life),
                       After(log + [Clear(Everything, at, persists)], life);
      && (forall kind, other :: At(some.entries, (kind, other)) == if other == configId then None
                                                                   else At(c.entries, (kind, other)))
      && all.entries == map[]
      && some.notified == (c.notified + if some.entries == c.entries then 0 else 1)
      && all.notified == (c.notified + if c.entries == map[] then 0 else 1)
      && some.disk == (if some.entries != c.entries && persists then some.entries else c.disk)
      && all.disk == (if c.entries != map[] && persists then map[] else c.disk)
  {
    assert (log + [Clear(Config(configId), at, persists)])[..|log|] == log;
    assert (log + [Clear(Everything, at, persists)])[..|log|] == log;
  }

  // ---- The file, and restarts ---------------------------------------------------------------------

  /** The file holds the same keys and tools, seen no later. */
  predicate DiskAgrees(c: Cache) {
    && c.disk.Keys == c.entries.Keys
    && forall k :: k in c.entries ==>
         c.disk[k].tools == c.entries[k].tools && c.disk[k].lastSeen <= c.entries[k].lastSeen
  }

  lemma EvictedAgrees(c: Cache, now: nat, life: nat)
    requires DiskAgrees(c)
    ensures DiskAgrees(Evicted(c, now, life, true))
  {
  }

  lemma UpsertedAgrees(c: Cache, op: Op, life: nat)
    requires op.Upsert? && op.persists && DiskAgrees(c) && SeenBy(c.entries, op.seenAt)
    ensures DiskAgrees(Did(c, op, life))
  {
    var e := Evicted(c, op.evictAt, life, true);
    EvictedAgrees(c, op.evictAt, life);
    assert forall k :: k in e.entries ==> k in c.entries && e.entries[k] == c.entries[k];
    assert op.key in e.disk ==> e.disk[op.key].lastSeen <= op.seenAt;
  }

  lemma DidSeenBy(c: Cache, op: Op, life: nat, now: nat)
    requires SeenBy(c.entries, now) && now <= Ends(op) && DiskAgrees(c)
    ensures SeenBy(Did(c, op, life).entries, Ends(op))
  {
  }

  /** With successful writes, in every run with restarts: the file has the keys and tools of memory, seen no later. */
  lemma {:induction false} DiskFollows(log: seq<Op>, life: nat)
    requires InTime(log) && AllPersisted(log)
    ensures DiskAgrees(After(log, life)) && SeenBy(After(log, life).entries, Now(log))
  {
    if log != [] {
      var init, op := log[..|log| - 1], log[|log| - 1];
      DiskFollows(init, life);
      var c := After(init, life);
      DidSeenBy(c, op, life, Now(init));
      match op {
        case Upsert(_, _, _, _, _) => UpsertedAgrees(c, op, life);
        case Read(at, _) => EvictedAgrees(c, at, life);
        case _ =>
      }
    }
  }

  /** Held with the log's latest tools, seen no later than the log says. */
  predicate Honours(e: Option<Entry>, latest: Option<Entry>) {
    e.Some? ==> latest.Some? && e.value.tools == latest.value.tools && e.value.lastSeen <= latest.value.lastSeen
  }

  lemma {:induction false} RestartsHonourLog(log: seq<Op>, life: nat, k: Key)
    requires InTime(log) && AllPersisted(log)
    ensures Honours(At(After(log, life).entries, k), Latest(log, k))
  {
    if log != [] {
      var init, op := log[..|log| - 1], log[|log| - 1];
      RestartsHonourLog(init, life, k);
      DiskFollows(init, life);
      if !op.Restart? {
        DidAt(After(init, life), op, life, k);
        if op.Upsert? { EvictedAt(After(init, life), op.evictAt, life, op.persists, k); }
      }
    }
  }

  /** With restarts anywhere in a run of successful writes, nothing wrong is ever shown: every listed entry is visible
      in the log with the same tools. */
  lemma ListedIsInLog(log: seq<Op>, life: nat, now: nat, k: Key)
    requires InTime(log) && AllPersisted(log) && Now(log) <= now && k in Alive(After(log, life).entries, now, life)
    ensures Visible(log, k, now, life).Some?
    ensures Visible(log, k, now, life).value.tools == After(log, life).entries[k].tools
  {
    RestartsHonourLog(log, life, k);
  }

  /** A restart shows a subset with identical tools: it can only make an entry disappear earlier. */
  lemma RestartsShowASubset(log: seq<Op>, life: nat, now: nat, k: Key)
    requires InTime(log) && AllPersisted(log) && Now(log) <= now
    ensures var shown := Alive(After(log, life).entries, now, life);
      var again := Alive(After(log + [Restart(now)], life).entries, now, life);
      k in again ==> k in shown && again[k].tools == shown[k].tools
  {
    DiskFollows(log, life);
    assert (log + [Restart(now)])[..|log|] == log;
  }
}
