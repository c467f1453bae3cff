/** Sorted enumerations of string sets: what `sort.Strings` makes of map keys taken in any order. */
module Sorting {
  import opened Text

  predicate Ascending(r: seq<string>) {
    forall i, j :: 0 <= i < j < |r| ==> Less(r[i], r[j])
  }

  /** `r` lists every element of `s` exactly once, in ascending order. */
  ghost predicate Enumerates(r: seq<string>, s: set<string>) {
    Ascending(r) && forall x :: x in s <==> x in r
  }

  lemma {:induction false} LessIrreflexive(a: string)
    ensures !Less(a, a)
  {
    if a != "" { LessIrreflexive(a[1..]); }
  }

  lemma {:induction false} LessTransitive(a: string, b: string, c: string)
    requires Less(a, b) && Less(b, c)
    ensures Less(a, c)
  {
    if a != "" && b != "" && c != "" && a[0] == b[0] == c[0] {
      LessTransitive(a[1..], b[1..], c[1..]);
    }
  }

  lemma {:induction false} LessTotal(a: string, b: string)
    ensures a == b || Less(a, b) || Less(b, a)
  {
    if a != "" && b != "" && a[0] == b[0] {
      LessTotal(a[1..], b[1..]);
      assert a == [a[0]] + a[1..] && b == [b[0]] + b[1..];
    }
  }

  function Insert(x: string, r: seq<string>): (t: seq<string>)
    ensures forall y :: y in t <==> y == x || y in r
  {
    if r == [] then [x]
    else if x == r[0] then r
    else if Less(x, r[0]) then [x] + r
    else
      assert r == [r[0]] + r[1..];
      [r[0]] + Insert(x, r[1..])
  }

  lemma {:induction false} InsertAscending(x: string, r: seq<string>)
    requires Ascending(r)
    ensures Ascending(Insert(x, r))
  {
    if r == [] || x == r[0] {
    } else if Less(x, r[0]) {
      forall j | 0 <= j < |r| ensures Less(x, r[j]) {
        if j > 0 { LessTransitive(x, r[0], r[j]); }
      }
    } else {
      LessTotal(x, r[0]);
      InsertAscending(x, r[1..]);
      var t := Insert(x, r[1..]);
      forall j | 0 <= j < |t| ensures Less(r[0], t[j]) {
        assert t[j] in t;
        if t[j] != x {
          var k :| 0 <= k < |r[1..]| && r[1..][k] == t[j];
          assert r[k + 1] == t[j];
        }
      }
    }
  }

  /** Sort a set whose elements arrive in an arbitrary order. */
  method SortedElements(s: set<string>) returns (r: seq<string>)
    ensures Enumerates(r, s)
  {
    r := [];
    var todo := s;
    while todo != {}
      invariant todo <= s && Enumerates(r, s - todo)
      decreases |todo|
    {
      var x :| x in todo;
      InsertAscending(x, r);
      r := Insert(x, r);
      todo := todo - {x};
    }
  }

  ghost function SortedSeq(s: set<string>): (r: seq<string>)
    ensures Enumerates(r, s)
  {
    if s == {} then [] else
      var x :| x in s;
      var rest := SortedSeq(s - {x});
      InsertAscending(x, rest);
      Insert(x, rest)
  }

  // ---------------------------------------------------------------- lists with repetitions

  predicate Rising(r: seq<string>) {
    forall i, j :: 0 <= i < j < |r| ==> !Less(r[j], r[i])
  }

  function Place(x: string, r: seq<string>): seq<string> {
    if r == [] then [x] else if Less(r[0], x) then [r[0]] + Place(x, r[1..]) else [x] + r
  }

  /** `sort.Strings` */
  function Sorted(xs: seq<string>): seq<string> {
    if xs == [] then [] else Place(xs[0], Sorted(xs[1..]))
  }

  lemma {:induction false} PlaceSorts(x: string, r: seq<string>)
    requires Rising(r)
    ensures Rising(Place(x, r)) && multiset(Place(x, r)) == multiset{x} + multiset(r)
  {
    if r == [] {
    } else if Less(r[0], x) {
      PlaceSorts(x, r[1..]);
      assert r == [r[0]] + r[1..];
      var t := Place(x, r[1..]);
      forall j | 0 <= j < |t| ensures !Less(t[j], r[0]) {
        assert t[j] in multiset(t);
        NoneBeforeFirst(x, r, t[j]);
      }
    } else {
      forall j | 0 <= j < |r| ensures !Less(r[j], x) {
        if Less(r[j], x) { LessThanFirst(x, r, j); }
      }
    }
  }

  lemma NoneBeforeFirst(x: string, r: seq<string>, y: string)
    requires r != [] && Rising(r) && Less(r[0], x) && (y == x || y in r[1..])
    ensures !Less(y, r[0])
  {
    if y == x && Less(x, r[0]) {
      LessTransitive(x, r[0], x);
      LessIrreflexive(x);
    }
  }

  lemma LessThanFirst(x: string, r: seq<string>, j: nat)
    requires j < |r| && Rising(r) && Less(r[j], x)
    ensures Less(r[0], x)
  {
    LessTotal(r[0], r[j]);
    if r[0] != r[j] { LessTransitive(r[0], r[j], x); }
  }

  lemma {:induction false} SortedSorts(xs: seq<string>)
    ensures Rising(Sorted(xs)) && multiset(Sorted(xs)) == multiset(xs) && |Sorted(xs)| == |xs|
  {
    if xs != [] {
      SortedSorts(xs[1..]);
      PlaceSorts(xs[0], Sorted(xs[1..]));
      assert xs == [xs[0]] + xs[1..];
    }
    assert |multiset(Sorted(xs))| == |multiset(xs)|;
  }

  lemma EmptyOrMember(t: seq<string>)
    ensures t == [] || exists x :: x in t
  {
    if t != [] { assert t[0] in t; }
  }

  /** The order of arrival leaves no trace: a set has one enumeration. */
  lemma {:induction false} EnumerationUnique(r: seq<string>, t: seq<string>, s: set<string>)
    requires Enumerates(r, s) && Enumerates(t, s)
    ensures r == t
    decreases |r|
  {
    assert forall i :: 0 <= i < |t| ==> t[i] in s && t[i] in r;
    if r == [] {
      EmptyOrMember(t);
    } else {
      assert r[0] in r;
      assert r[0] in t;
      assert t[0] in t;
      assert t[0] in r;
      FirstIsLeast(r, t);
      FirstIsLeast(t, r);
      if r[0] != t[0] { LessTransitive(r[0], t[0], r[0]); LessIrreflexive(r[0]); }
      TailEnumerates(r, s);
      TailEnumerates(t, s);
      EnumerationUnique(r[1..], t[1..], s - {r[0]});
      assert r == [r[0]] + r[1..] && t == [t[0]] + t[1..];
    }
  }

  lemma FirstIsLeast(r: seq<string>, t: seq<string>)
    requires r != [] && t != [] && Ascending(r) && t[0] in r
    ensures t[0] == r[0] || Less(r[0], t[0])
  {
    var k :| 0 <= k < |r| && r[k] == t[0];
  }

  lemma TailEnumerates(r: seq<string>, s: set<string>)
    requires r != [] && Enumerates(r, s)
    ensures Enumerates(r[1..], s - {r[0]})
  {
    forall x ensures x in s - {r[0]} <==> x in r[1..] {
      if x in r[1..] {
        var k :| 0 <= k < |r[1..]| && r[1..][k] == x;
        assert x == r[k + 1];
        if x == r[0] { LessIrreflexive(x); }
      }
      if x in s && x != r[0] {
        var k :| 0 <= k < |r| && r[k] == x;
        assert r[1..][k - 1] == x;
      }
    }
  }

  lemma SortedIsDistinct(keys: seq<string>, s: set<string>)
    requires Enumerates(keys, s)
    ensures forall i, j :: 0 <= i < j < |keys| ==> keys[i] != keys[j]
    ensures forall i :: 0 <= i < |keys| ==> keys[i] in s
  {
    forall i, j | 0 <= i < j < |keys| ensures keys[i] != keys[j] {
      LessIrreflexive(keys[i]);
    }
  }
}
