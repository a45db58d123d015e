/** Values shared by every module: options, results and the total order on strings. */
module Basics {
  datatype Option<+T> = None | Some(value: T)

  datatype Result<+T, +E> = Ok(value: T) | Err(error: E)

  /** Lexicographic order of code points, which is how Rust orders `String`. */
  predicate StrLe(a: string, b: string) {
    a == [] || (b != [] && (a[0] < b[0] || (a[0] == b[0] && StrLe(a[1..], b[1..]))))
  }

  predicate StrLt(a: string, b: string) {
    StrLe(a, b) && a != b
  }

  lemma {:induction false} StrLeTotal(a: string, b: string)
    ensures StrLe(a, b) || StrLe(b, a)
    ensures StrLe(a, b) && StrLe(b, a) ==> a == b
  {
    if a != [] && b != [] && a[0] == b[0] {
      StrLeTotal(a[1..], b[1..]);
      assert a == [a[0]] + a[1..] && b == [b[0]] + b[1..];
    }
  }

  lemma {:induction false} StrLeTransitive(a: string, b: string, c: string)
    requires StrLe(a, b) && StrLe(b, c)
    ensures StrLe(a, c)
  {
    if a != [] && a[0] == b[0] == c[0] {
      StrLeTransitive(a[1..], b[1..], c[1..]);
    }
  }

  /** The order, by the first difference: a string is before another if it is a proper beginning of it, or has the
      smaller character where they first differ. */
  lemma {:induction false} FirstDifferenceDecides(a: string, b: string, n: nat)
    requires n <= |a| && n <= |b| && a[..n] == b[..n] && (n < |a| && n < |b| ==> a[n] != b[n])
    requires n < |a| || n < |b|
    ensures StrLt(a, b) <==> n == |a| || (n < |b| && a[n] < b[n])
  {
    if n > 0 {
      assert a[0] == a[..n][0] == b[..n][0] == b[0];
      assert a[1..][..n - 1] == a[..n][1..] && b[1..][..n - 1] == b[..n][1..];
      FirstDifferenceDecides(a[1..], b[1..], n - 1);
      assert a == [a[0]] + a[1..] && b == [b[0]] + b[1..];
    }
  }

  predicate SortedStrings(s: seq<string>) {
    forall i, j :: 0 <= i < j < |s| ==> StrLe(s[i], s[j])
  }

  predicate Distinct<T(==)>(s: seq<T>) {
    forall i, j :: 0 <= i < j < |s| ==> s[i] != s[j]
  }

  function Elements(s: seq<string>): set<string> {
    set x | x in s
  }

  lemma SubsetSize<T>(a: set<T>, b: set<T>)
    requires a <= b
    ensures |a| <= |b| && (|a| == |b| ==> a == b)
  {
    assert b == a + (b - a);
  }
}

/** JSON values.  An object is an association list; serde's maps have unique keys,
    which is `WellFormed` here, and their order carries no meaning. */
module Json {
  import opened Basics

  datatype Field = Field(key: string, value: Json)

  /** A number is an integer or the text of any other number. */
  datatype Json =
    | Null
    | Bool(b: bool)
    | Int(n: int)
    | Float(text: string)
    | Str(s: string)
    | Arr(items: seq<Json>)
    | Obj(fields: seq<Field>)

  function Keys(fields: seq<Field>): set<string> {
    set i | 0 <= i < |fields| :: fields[i].key
  }

  predicate UniqueKeys(fields: seq<Field>) {
    forall i, j :: 0 <= i < j < |fields| ==> fields[i].key != fields[j].key
  }

  predicate WellFormed(v: Json) {
    match v
    case Arr(items) => forall i :: 0 <= i < |items| ==> WellFormed(items[i])
    case Obj(fields) =>
      && UniqueKeys(fields)
      && forall i :: 0 <= i < |fields| ==> WellFormed(fields[i].value)
    case _ => true
  }

  /** `Map::get`. */
  function Get(fields: seq<Field>, key: string): Option<Json> {
    if fields == [] then None
    else if fields[0].key == key then Some(fields[0].value)
    else Get(fields[1..], key)
  }

  lemma {:induction false} GetFinds(fields: seq<Field>, key: string)
    ensures Get(fields, key).None? <==> key !in Keys(fields)
    ensures Get(fields, key).Some? ==> exists i :: 0 <= i < |fields| && fields[i] == Field(key, Get(fields, key).value)
  {
    if fields != [] {
      KeysSplit(fields);
      GetFinds(fields[1..], key);
      if fields[0].key == key {
        assert fields[0] == Field(key, Get(fields, key).value);
      } else if Get(fields, key).Some? {
        var i :| 0 <= i < |fields[1..]| && fields[1..][i] == Field(key, Get(fields, key).value);
        assert fields[i + 1] == fields[1..][i];
      }
    }
  }

  lemma {:induction false} GetAt(fields: seq<Field>, i: nat)
    requires UniqueKeys(fields) && i < |fields|
    ensures Get(fields, fields[i].key) == Some(fields[i].value)
  {
    var r := Get(fields, fields[i].key);
    GetFinds(fields, fields[i].key);
    assert fields[i].key in Keys(fields);
    var j :| 0 <= j < |fields| && fields[j] == Field(fields[i].key, r.value);
    assert i == j;
  }

  /** `Map::insert`: replaces the value of a present key, appends an absent one. */
  function Put(fields: seq<Field>, key: string, value: Json): seq<Field> {
    if fields == [] then [Field(key, value)]
    else if fields[0].key == key then [Field(key, value)] + fields[1..]
    else [fields[0]] + Put(fields[1..], key, value)
  }

  lemma {:induction false} GetPut(fields: seq<Field>, key: string, value: Json, k: string)
    ensures Get(Put(fields, key, value), k) == if k == key then Some(value) else Get(fields, k)
  {
    var r := Put(fields, key, value);
    if fields == [] {
      assert r[1..] == [];
    } else if fields[0].key == key {
      assert r[1..] == fields[1..];
    } else {
      assert r[1..] == Put(fields[1..], key, value);
      GetPut(fields[1..], key, value, k);
    }
  }

  lemma {:induction false} PutKeys(fields: seq<Field>, key: string, value: Json)
    ensures Keys(Put(fields, key, value)) == Keys(fields) + {key}
    ensures UniqueKeys(fields) ==> UniqueKeys(Put(fields, key, value))
  {
    var r := Put(fields, key, value);
    KeysSplit(r);
    if fields != [] {
      KeysSplit(fields);
      if fields[0].key == key {
        assert r[1..] == fields[1..];
      } else {
        var rest := Put(fields[1..], key, value);
        assert r[1..] == rest;
        PutKeys(fields[1..], key, value);
        if UniqueKeys(fields) {
          NotInTail(fields);
          ConsUnique(fields[0], rest);
        }
      }
    }
  }

  lemma ConsUnique(f: Field, rest: seq<Field>)
    requires UniqueKeys(rest) && f.key !in Keys(rest)
    ensures UniqueKeys([f] + rest)
  {
    var r := [f] + rest;
    forall i, j | 0 <= i < j < |r| ensures r[i].key != r[j].key {
      assert rest[j - 1].key in Keys(rest);
    }
  }

  lemma NotInTail(fields: seq<Field>)
    requires UniqueKeys(fields) && fields != []
    ensures fields[0].key !in Keys(fields[1..])
  {
    forall i | 0 <= i < |fields[1..]| ensures fields[1..][i].key != fields[0].key {
      assert fields[1..][i] == fields[i + 1];
    }
  }

  lemma KeysSplit(fields: seq<Field>)
    requires fields != []
    ensures Keys(fields) == {fields[0].key} + Keys(fields[1..])
  {
    assert fields == [fields[0]] + fields[1..];
    forall k | k in Keys(fields) ensures k in {fields[0].key} + Keys(fields[1..]) {
      var i :| 0 <= i < |fields| && fields[i].key == k;
      if i > 0 { assert fields[1..][i - 1].key == k; }
    }
    forall k | k in Keys(fields[1..]) ensures k in Keys(fields) {
      var i :| 0 <= i < |fields[1..]| && fields[1..][i].key == k;
      assert fields[i + 1].key == k;
    }
  }

  /** `Value::as_str`. */
  function AsStr(v: Option<Json>): Option<string> {
    if v.Some? && v.value.Str? then Some(v.value.s) else None
  }

  // ---- Equality up to the order of object keys -----------------------------

  /** Two values mean the same: equal up to the order of keys at every depth. */
  ghost predicate Same(a: Json, b: Json)
    decreases a
  {
    match a
    case Arr(xs) =>
      && b.Arr? && |xs| == |b.items|
      && forall i :: 0 <= i < |xs| ==> Same(xs[i], b.items[i])
    case Obj(fs) =>
      && b.Obj? && Keys(fs) == Keys(b.fields)
      && forall i, j :: 0 <= i < |fs| && 0 <= j < |b.fields| && fs[i].key == b.fields[j].key
           ==> Same(fs[i].value, b.fields[j].value)
    case _ => a == b
  }

  // ---- Canonical form -------------------------------------------------------

  predicate StrictlySorted(fs: seq<Field>) {
    forall i, j :: 0 <= i < j < |fs| ==> StrLt(fs[i].key, fs[j].key)
  }

  /** Where the ordered map puts one more entry. */
  function InsertSorted(f: Field, fs: seq<Field>): seq<Field> {
    if fs == [] then [f]
    else if StrLe(f.key, fs[0].key) then [f] + fs
    else [fs[0]] + InsertSorted(f, fs[1..])
  }

  lemma {:induction false} InsertSortedMember(f: Field, fs: seq<Field>, g: Field)
    ensures g in InsertSorted(f, fs) <==> g == f || g in fs
  {
    if fs != [] && !StrLe(f.key, fs[0].key) {
      InsertSortedMember(f, fs[1..], g);
      assert fs == [fs[0]] + fs[1..];
    }
  }

  lemma {:induction false} InsertSortedKeepsOrder(f: Field, fs: seq<Field>)
    requires StrictlySorted(fs) && f.key !in Keys(fs)
    ensures StrictlySorted(InsertSorted(f, fs))
  {
    if fs == [] {
    } else if StrLe(f.key, fs[0].key) {
      forall j | 0 <= j < |fs| ensures StrLt(f.key, fs[j].key) {
        if j > 0 { StrLeTransitive(f.key, fs[0].key, fs[j].key); }
        assert fs[j].key in Keys(fs);
      }
    } else {
      KeysSplit(fs);
      InsertSortedKeepsOrder(f, fs[1..]);
      var rest := InsertSorted(f, fs[1..]);
      StrLeTotal(f.key, fs[0].key);
      forall j | 0 <= j < |rest| ensures StrLt(fs[0].key, rest[j].key) {
        InsertSortedMember(f, fs[1..], rest[j]);
      }
      var r := [fs[0]] + rest;
      forall i, j | 0 <= i < j < |r| ensures StrLt(r[i].key, r[j].key) {
        if i > 0 { assert r[i] == rest[i - 1] && r[j] == rest[j - 1]; }
      }
    }
  }

  /** `canonicalize`: object keys sorted at every depth. */
  function Canonicalize(v: Json): Json
    decreases v, 1
  {
    match v
    case Arr(items) => Arr(seq(|items|, i requires 0 <= i < |items| => Canonicalize(items[i])))
    case Obj(fields) => Obj(CanonFields(v, fields))
    case _ => v
  }

  /** The fields of `owner`, collected one by one into the ordered map. */
  function CanonFields(owner: Json, fields: seq<Field>): seq<Field>
    requires forall f :: f in fields ==> f.value < owner
    decreases owner, 0, |fields|
  {
    if fields == [] then []
    else InsertSorted(Field(fields[0].key, Canonicalize(fields[0].value)), CanonFields(owner, fields[1..]))
  }

  /** `f` is the canonical form of one of the fields. */
  ghost predicate IsCanonEntry(fields: seq<Field>, f: Field) {
    exists i :: 0 <= i < |fields| && fields[i].key == f.key && Canonicalize(fields[i].value) == f.value
  }

  lemma {:induction false} CanonFieldsMember(owner: Json, fields: seq<Field>, f: Field)
    requires forall g :: g in fields ==> g.value < owner
    ensures f in CanonFields(owner, fields) <==> IsCanonEntry(fields, f)
    decreases |fields|
  {
    if fields != [] {
      var tail := fields[1..];
      CanonFieldsMember(owner, tail, f);
      var head, rest := Field(fields[0].key, Canonicalize(fields[0].value)), CanonFields(owner, tail);
      InsertSortedMember(head, rest, f);
      if IsCanonEntry(tail, f) {
        var i :| 0 <= i < |tail| && tail[i].key == f.key && Canonicalize(tail[i].value) == f.value;
        assert fields[i + 1] == tail[i];
      }
      if IsCanonEntry(fields, f) && f != head {
        var i :| 0 <= i < |fields| && fields[i].key == f.key && Canonicalize(fields[i].value) == f.value;
        assert tail[i - 1] == fields[i];
      }
    }
  }

  lemma {:induction false} CanonFieldsSorted(owner: Json, fields: seq<Field>)
    requires forall g :: g in fields ==> g.value < owner
    requires UniqueKeys(fields)
    ensures StrictlySorted(CanonFields(owner, fields))
    ensures Keys(CanonFields(owner, fields)) == Keys(fields)
    decreases |fields|
  {
    if fields != [] {
      var head, rest := Field(fields[0].key, Canonicalize(fields[0].value)), CanonFields(owner, fields[1..]);
      CanonFieldsSorted(owner, fields[1..]);
      NotInTail(fields);
      InsertSortedKeepsOrder(head, rest);
      InsertSortedKeys(head, rest);
      KeysSplit(fields);
    }
  }

  lemma InsertSortedKeys(f: Field, fs: seq<Field>)
    ensures Keys(InsertSorted(f, fs)) == Keys(fs) + {f.key}
  {
    var r := InsertSorted(f, fs);
    forall k | k in Keys(r) ensures k in Keys(fs) + {f.key} {
      var i :| 0 <= i < |r| && r[i].key == k;
      InsertSortedMember(f, fs, r[i]);
    }
    forall k | k in Keys(fs) + {f.key} ensures k in Keys(r) {
      if k == f.key {
        InsertSortedMember(f, fs, f);
      } else {
        var i :| 0 <= i < |fs| && fs[i].key == k;
        InsertSortedMember(f, fs, fs[i]);
      }
    }
  }

  /** A strictly sorted object is determined by its set of entries. */
  lemma {:induction false} SortedDetermined(a: seq<Field>, b: seq<Field>)
    requires StrictlySorted(a) && StrictlySorted(b)
    requires forall f :: f in a <==> f in b
    ensures a == b
  {
    if |a| > 0 { assert a[0] in b; }
    if |b| > 0 { assert b[0] in a; }
    if a != [] {
      var j :| 0 <= j < |b| && b[j] == a[0];
      assert b[0] in b;
      var i :| 0 <= i < |a| && a[i] == b[0];
      if i > 0 && j > 0 { StrLeTotal(a[0].key, b[0].key); }
      assert a[0] == b[0];
      forall f ensures f in a[1..] <==> f in b[1..] {
        if f in a[1..] {
          var k :| 0 < k < |a| && a[k] == f;
          assert f in b && f.key != a[0].key;
        }
        if f in b[1..] {
          var k :| 0 < k < |b| && b[k] == f;
          assert f in a && f.key != b[0].key;
        }
      }
      SortedDetermined(a[1..], b[1..]);
      assert a == [a[0]] + a[1..] && b == [b[0]] + b[1..];
    }
  }

  /** Canonical forms are equal exactly when the values mean the same. */
  lemma {:induction false} CanonicalIffSame(a: Json, b: Json)
    requires WellFormed(a) && WellFormed(b)
    ensures Canonicalize(a) == Canonicalize(b) <==> Same(a, b)
    decreases a
  {
    match (a, b) {
      case (Arr(xs), Arr(ys)) =>
        if |xs| == |ys| {
          forall i | 0 <= i < |xs| ensures Canonicalize(xs[i]) == Canonicalize(ys[i]) <==> Same(xs[i], ys[i]) {
            CanonicalIffSame(xs[i], ys[i]);
          }
          var ca, cb := Canonicalize(a).items, Canonicalize(b).items;
          if ca == cb {
            forall i | 0 <= i < |xs| ensures Same(xs[i], ys[i]) { assert ca[i] == cb[i]; }
          }
        } else {
          assert |Canonicalize(a).items| != |Canonicalize(b).items|;
        }
      case (Obj(fs), Obj(gs)) =>
        forall i, j | 0 <= i < |fs| && 0 <= j < |gs|
          ensures Canonicalize(fs[i].value) == Canonicalize(gs[j].value) <==> Same(fs[i].value, gs[j].value)
        {
          CanonicalIffSame(fs[i].value, gs[j].value);
        }
        CanonObjects(a, fs, b, gs);
      case _ =>
    }
  }

  /** Equal keys carry values with equal canonical forms. */
  ghost predicate AgreeOnKeys(fs: seq<Field>, gs: seq<Field>) {
    forall i, j :: 0 <= i < |fs| && 0 <= j < |gs| && fs[i].key == gs[j].key
      ==> Canonicalize(fs[i].value) == Canonicalize(gs[j].value)
  }

  lemma CanonObjects(a: Json, fs: seq<Field>, b: Json, gs: seq<Field>)
    requires a == Obj(fs) && b == Obj(gs) && UniqueKeys(fs) && UniqueKeys(gs)
    ensures Canonicalize(a) == Canonicalize(b) <==> Keys(fs) == Keys(gs) && AgreeOnKeys(fs, gs)
  {
    CanonFieldsSorted(a, fs);
    CanonFieldsSorted(b, gs);
    if Keys(fs) == Keys(gs) && AgreeOnKeys(fs, gs) {
      forall f ensures f in CanonFields(a, fs) <==> f in CanonFields(b, gs) {
        CanonFieldsMember(a, fs, f);
        CanonFieldsMember(b, gs, f);
        CanonEntryMoves(fs, gs, f);
        CanonEntryMoves(gs, fs, f);
      }
      SortedDetermined(CanonFields(a, fs), CanonFields(b, gs));
    }
    if Canonicalize(a) == Canonicalize(b) {
      forall i, j | 0 <= i < |fs| && 0 <= j < |gs| && fs[i].key == gs[j].key
        ensures Canonicalize(fs[i].value) == Canonicalize(gs[j].value)
      {
        var f := Field(fs[i].key, Canonicalize(fs[i].value));
        CanonFieldsMember(a, fs, f);
        CanonFieldsMember(b, gs, f);
        var k :| 0 <= k < |gs| && gs[k].key == f.key && Canonicalize(gs[k].value) == f.value;
        assert k == j;
      }
    }
  }

  lemma CanonEntryMoves(fs: seq<Field>, gs: seq<Field>, f: Field)
    requires Keys(fs) == Keys(gs) && AgreeOnKeys(fs, gs)
    ensures IsCanonEntry(fs, f) ==> IsCanonEntry(gs, f)
  {
    if IsCanonEntry(fs, f) {
      var i :| 0 <= i < |fs| && fs[i].key == f.key && Canonicalize(fs[i].value) == f.value;
      assert f.key in Keys(gs);
      var j :| 0 <= j < |gs| && gs[j].key == f.key;
    }
  }

  /** The canonical form means what the value means. */
  lemma {:induction false} CanonicalMeansSame(v: Json)
    requires WellFormed(v)
    ensures WellFormed(Canonicalize(v)) && Same(v, Canonicalize(v))
  {
    match v {
      case Arr(items) =>
        forall i | 0 <= i < |items|
          ensures Same(items[i], Canonicalize(items[i])) && WellFormed(Canonicalize(items[i]))
        {
          CanonicalMeansSame(items[i]);
        }
      case Obj(fields) =>
        var r := CanonFields(v, fields);
        CanonFieldsSorted(v, fields);
        forall i | 0 <= i < |fields|
          ensures Same(fields[i].value, Canonicalize(fields[i].value)) && WellFormed(Canonicalize(fields[i].value))
        {
          CanonicalMeansSame(fields[i].value);
        }
        forall j | 0 <= j < |r|
          ensures WellFormed(r[j].value)
          ensures forall i :: 0 <= i < |fields| && fields[i].key == r[j].key ==> Same(fields[i].value, r[j].value)
        {
          CanonFieldsMember(v, fields, r[j]);
          assert r[j] in r;
          var k :| 0 <= k < |fields| && fields[k].key == r[j].key && Canonicalize(fields[k].value) == r[j].value;
        }
      case _ =>
    }
  }

  /** Canonicalising twice is canonicalising once. */
  lemma CanonicalIdempotent(v: Json)
    requires WellFormed(v)
    ensures Canonicalize(Canonicalize(v)) == Canonicalize(v)
  {
    CanonicalMeansSame(v);
    CanonicalIffSame(v, Canonicalize(v));
  }

  /** Values whose keys are sorted, as serde's maps keep them, mean the same exactly when they are equal. */
  lemma SortedEqualIffSame(a: Json, b: Json)
    requires WellFormed(a) && WellFormed(b) && Canonicalize(a) == a && Canonicalize(b) == b
    ensures a == b <==> Same(a, b)
  {
    CanonicalIffSame(a, b);
  }

  /** Meaning the same is an equivalence. */
  lemma SameEquivalence(a: Json, b: Json, c: Json)
    requires WellFormed(a) && WellFormed(b) && WellFormed(c)
    ensures Same(a, a)
    ensures Same(a, b) ==> Same(b, a)
    ensures Same(a, b) && Same(b, c) ==> Same(a, c)
  {
    CanonicalIffSame(a, a);
    CanonicalIffSame(a, b);
    CanonicalIffSame(b, a);
    CanonicalIffSame(b, c);
    CanonicalIffSame(a, c);
  }
}
