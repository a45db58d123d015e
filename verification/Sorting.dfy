/** Sorted sequences of strings: as functions of a set or a bag, and as loops that compute them. */
module Sorting {
  import opened Basics

  lemma {:induction false} MinExists(s: set<string>)
    requires s != {}
    ensures exists m :: m in s && forall x :: x in s ==> StrLe(m, x)
  {
    var y :| y in s;
    StrLeTotal(y, y);
    if s - {y} != {} {
      MinExists(s - {y});
      var m :| m in s - {y} && forall x :: x in s - {y} ==> StrLe(m, x);
      StrLeTotal(m, y);
      var least := if StrLe(m, y) then m else y;
      forall x | x in s ensures StrLe(least, x) {
        if x == y { StrLeTotal(y, y); } else if least == y { StrLeTransitive(y, m, x); }
      }
    } else {
      assert s == {y};
    }
  }

  predicate StrictlySortedStrings(s: seq<string>) {
    forall i, j :: 0 <= i < j < |s| ==> StrLt(s[i], s[j])
  }

  ghost predicate Lists(r: seq<string>, s: set<string>) {
    StrictlySortedStrings(r) && forall x :: x in r <==> x in s
  }

  lemma {:induction false} ListingExists(s: set<string>)
    ensures exists r :: Lists(r, s)
  {
    if s == {} {
      assert Lists([], s);
    } else {
      MinExists(s);
      var m :| m in s && forall x :: x in s ==> StrLe(m, x);
      ListingExists(s - {m});
      var rest :| Lists(rest, s - {m});
      assert forall i :: 0 <= i < |rest| ==> rest[i] in rest;
      assert Lists([m] + rest, s);
    }
  }

  /** A set of strings in order. */
  ghost function Sorted(s: set<string>): (r: seq<string>)
    ensures Lists(r, s)
  {
    ListingExists(s);
    var r :| Lists(r, s);
    r
  }

  /** Strictly sorted sequences with the same elements are equal. */
  lemma {:induction false} SortedUnique(a: seq<string>, b: seq<string>)
    requires StrictlySortedStrings(a) && StrictlySortedStrings(b) && forall x :: x in a <==> x in b
    ensures a == b
  {
    if |a| > 0 { assert a[0] in b; }
    if |b| > 0 { assert b[0] in a; }
    if a != [] {
      StrLeTotal(a[0], b[0]);
      assert a[0] == b[0];
      forall x ensures x in a[1..] <==> x in b[1..] {
        if x in a[1..] { var i :| 0 < i < |a| && a[i] == x; assert x in b; }
        if x in b[1..] { var i :| 0 < i < |b| && b[i] == x; assert x in a; }
      }
      SortedUnique(a[1..], b[1..]);
      assert a == [a[0]] + a[1..] && b == [b[0]] + b[1..];
    }
  }

  lemma BagMinExists(bag: multiset<string>)
    requires bag != multiset{}
    ensures exists m :: m in bag && forall x :: x in bag ==> StrLe(m, x)
  {
    var y :| y in bag;
    var s := set x | x in bag;
    assert y in s;
    MinExists(s);
    var m :| m in s && forall x :: x in s ==> StrLe(m, x);
    assert m in bag;
    forall x | x in bag ensures StrLe(m, x) { assert x in s; }
  }

  lemma ConsSorted(m: string, rest: seq<string>)
    requires SortedStrings(rest) && forall i :: 0 <= i < |rest| ==> StrLe(m, rest[i])
    ensures SortedStrings([m] + rest)
  {
  }

  lemma BagCons(bag: multiset<string>, m: string, rest: seq<string>)
    requires m in bag && (forall x :: x in bag ==> StrLe(m, x)) && SortedStrings(rest)
        && multiset(rest) == bag - multiset{m}
    ensures SortedStrings([m] + rest) && multiset([m] + rest) == bag
  {
    forall i | 0 <= i < |rest| ensures StrLe(m, rest[i]) {
      assert rest[i] in multiset(rest);
      assert rest[i] in bag;
    }
    ConsSorted(m, rest);
    ConsBag(m, rest);
    BagPut(bag, m);
  }

  lemma ConsBag(m: string, rest: seq<string>)
    ensures multiset([m] + rest) == multiset{m} + multiset(rest)
  {
  }

  lemma BagPut(bag: multiset<string>, m: string)
    requires m in bag
    ensures multiset{m} + (bag - multiset{m}) == bag
  {
  }

  ghost predicate ListsBag(r: seq<string>, bag: multiset<string>) {
    SortedStrings(r) && multiset(r) == bag
  }

  lemma BagLess(bag: multiset<string>, m: string)
    requires m in bag
    ensures |bag - multiset{m}| < |bag|
  {
  }

  lemma BagListingStep(bag: multiset<string>, m: string)
    requires m in bag && (forall x :: x in bag ==> StrLe(m, x)) && exists rest :: ListsBag(rest, bag - multiset{m})
    ensures exists r :: ListsBag(r, bag)
  {
    var rest :| ListsBag(rest, bag - multiset{m});
    BagCons(bag, m, rest);
    assert ListsBag([m] + rest, bag);
  }

  lemma {:induction false} BagListingExists(bag: multiset<string>)
    ensures exists r :: ListsBag(r, bag)
    decreases |bag|
  {
    if bag == multiset{} {
      assert ListsBag([], bag);
    } else {
      BagMinExists(bag);
      var m :| m in bag && forall x :: x in bag ==> StrLe(m, x);
      var less := bag - multiset{m};
      BagLess(bag, m);
      BagListingExists(less);
      BagListingStep(bag, m);
    }
  }

  /** A bag of strings in order. */
  ghost function SortedBag(bag: multiset<string>): (r: seq<string>)
    ensures ListsBag(r, bag)
  {
    BagListingExists(bag);
    var r :| ListsBag(r, bag);
    r
  }

  lemma HeadIsLeast(a: seq<string>, x: string)
    requires SortedStrings(a) && x in multiset(a)
    ensures a != [] && StrLe(a[0], x)
  {
    assert x in a;
    var i :| 0 <= i < |a| && a[i] == x;
    StrLeTotal(x, x);
  }

  lemma TailBag(a: seq<string>)
    requires a != []
    ensures multiset(a[1..]) == multiset(a) - multiset{a[0]}
  {
    assert a == [a[0]] + a[1..];
  }

  /** Sorted sequences with the same bag are equal. */
  lemma {:induction false} SortedBagUnique(a: seq<string>, b: seq<string>)
    requires SortedStrings(a) && SortedStrings(b) && multiset(a) == multiset(b)
    ensures a == b
  {
    assert |multiset(a)| == |a| && |multiset(b)| == |b|;
    if a != [] {
      assert a[0] in multiset(a) && b[0] in multiset(b);
      HeadIsLeast(a, b[0]);
      HeadIsLeast(b, a[0]);
      StrLeTotal(a[0], b[0]);
      TailBag(a);
      TailBag(b);
      SortedBagUnique(a[1..], b[1..]);
      assert a == [a[0]] + a[1..] && b == [b[0]] + b[1..];
    }
  }

  /** `sort()`: by insertion. */
  method SortStrings(s: seq<string>) returns (r: seq<string>)
    ensures r == SortedBag(multiset(s))
  {
    r := [];
    var i := 0;
    while i < |s|
      invariant 0 <= i <= |s| && SortedStrings(r) && multiset(r) == multiset(s[..i])
    {
      r := InsertString(r, s[i]);
      assert s[..i + 1] == s[..i] + [s[i]];
      i := i + 1;
    }
    assert s[..i] == s;
    SortedBagUnique(r, SortedBag(multiset(s)));
  }

  method InsertString(s: seq<string>, x: string) returns (r: seq<string>)
    requires SortedStrings(s)
    ensures SortedStrings(r) && multiset(r) == multiset(s) + multiset{x}
  {
    var n := 0;
    while n < |s| && StrLe(s[n], x)
      invariant 0 <= n <= |s| && forall i :: 0 <= i < n ==> StrLe(s[i], x)
    {
      n := n + 1;
    }
    r := s[..n] + [x] + s[n..];
    assert s == s[..n] + s[n..];
    forall j | n <= j < |s| ensures StrLe(x, s[j]) {
      StrLeTotal(s[n], x);
      if j > n { StrLeTransitive(x, s[n], s[j]); }
    }
  }

  /** The elements of a set, collected in any order and sorted. */
  method SortSet(s: set<string>) returns (r: seq<string>)
    ensures r == Sorted(s)
  {
    var all := Collect(s);
    r := SortStrings(all);
    SortedOnce(r, s);
    SortedUnique(r, Sorted(s));
  }

  method Collect(s: set<string>) returns (all: seq<string>)
    ensures multiset(all) == multiset(s)
  {
    var rest := s;
    all := [];
    while rest != {}
      invariant rest <= s && multiset(all) == multiset(s - rest)
      decreases |rest|
    {
      var x :| x in rest;
      assert s - (rest - {x}) == (s - rest) + {x};
      rest, all := rest - {x}, all + [x];
    }
    assert s - {} == s;
  }

  lemma SortedOnce(r: seq<string>, s: set<string>)
    requires SortedStrings(r) && multiset(r) == multiset(s)
    ensures StrictlySortedStrings(r) && forall x :: x in r <==> x in s
  {
    forall i, j | 0 <= i < j < |r| ensures StrLt(r[i], r[j]) {
      if r[i] == r[j] { TwiceInBag(r, i, j); }
    }
    forall x ensures x in r <==> x in s { assert x in r <==> x in multiset(r); }
  }

  lemma TwiceInBag(r: seq<string>, i: nat, j: nat)
    requires i < j < |r| && r[i] == r[j]
    ensures multiset(r)[r[i]] >= 2
  {
    assert r == r[..j] + [r[j]] + r[j + 1..];
    assert r[..j][i] == r[j];
    assert r[j] in multiset(r[..j]);
  }
}
