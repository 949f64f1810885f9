/** Generic sequence operations that the reconciler's pipelines are built from:
    Array.prototype.filter, map and find, the reduce-based `flatten`, and
    `unique` (Array.from(new Set(list))). */
module Seqs {

  datatype Option<T> = None | Some(value: T)

  /** Array.prototype.filter: the elements that satisfy `p`, in their order. */
  function Filter<T>(s: seq<T>, p: T -> bool): (r: seq<T>)
    ensures |r| <= |s|
    ensures forall i :: 0 <= i < |r| ==> r[i] in s && p(r[i])
    ensures forall i :: 0 <= i < |s| && p(s[i]) ==> s[i] in r
  {
    if s == [] then [] else (if p(s[0]) then [s[0]] else []) + Filter(s[1..], p)
  }

  /** Membership in a filter, stated on elements. */
  lemma FilterMembers<T>(s: seq<T>, p: T -> bool, y: T)
    ensures y in Filter(s, p) <==> y in s && p(y)
  {
    if y in Filter(s, p) {
      var i :| 0 <= i < |Filter(s, p)| && Filter(s, p)[i] == y;
    }
    if y in s && p(y) {
      var i :| 0 <= i < |s| && s[i] == y;
    }
  }

  /** Filtering commutes with concatenation, so it keeps relative order. */
  lemma {:induction false} FilterAppend<T>(a: seq<T>, b: seq<T>, p: T -> bool)
    ensures Filter(a + b, p) == Filter(a, p) + Filter(b, p)
  {
    if a != [] {
      assert (a + b)[0] == a[0] && (a + b)[1..] == a[1..] + b;
      FilterAppend(a[1..], b, p);
    } else {
      assert a + b == b;
    }
  }

  /** A filter whose predicate holds everywhere changes nothing. */
  lemma {:induction false} FilterAll<T>(s: seq<T>, p: T -> bool)
    requires forall i :: 0 <= i < |s| ==> p(s[i])
    ensures Filter(s, p) == s
  {
    if s != [] {
      FilterAll(s[1..], p);
    }
  }

  /** Array.prototype.map. */
  function Map<T, U>(s: seq<T>, f: T -> U): (r: seq<U>)
    ensures |r| == |s|
    ensures forall i :: 0 <= i < |s| ==> r[i] == f(s[i])
  {
    if s == [] then [] else [f(s[0])] + Map(s[1..], f)
  }

  /** Membership in a filter, map, filter chain: `y` is kept exactly when it
      passes the last filter and is the image of an element kept by the first. */
  lemma FilterMapFilterMembers<T, U>(s: seq<T>, keep: T -> bool, f: T -> U, valid: U -> bool, y: U)
    ensures y in Filter(Map(Filter(s, keep), f), valid) <==>
            valid(y) && exists i :: 0 <= i < |s| && keep(s[i]) && f(s[i]) == y
  {
    var kept := Filter(s, keep);
    var mapped := Map(kept, f);
    if y in Filter(mapped, valid) {
      var j :| 0 <= j < |mapped| && mapped[j] == y;
      var i :| 0 <= i < |s| && s[i] == kept[j];
    }
    if valid(y) && exists i :: 0 <= i < |s| && keep(s[i]) && f(s[i]) == y {
      var i :| 0 <= i < |s| && keep(s[i]) && f(s[i]) == y;
      var j :| 0 <= j < |kept| && kept[j] == s[i];
      assert mapped[j] == y;
    }
  }

  /** The element of `s` that an item of a filter, map, filter chain came from. */
  lemma FilterMapFilterSource<T, U>(s: seq<T>, keep: T -> bool, f: T -> U, valid: U -> bool, y: U)
    returns (i: nat)
    requires y in Filter(Map(Filter(s, keep), f), valid)
    ensures i < |s| && keep(s[i]) && f(s[i]) == y && valid(y)
  {
    var kept := Filter(s, keep);
    var mapped := Map(kept, f);
    var j :| 0 <= j < |mapped| && mapped[j] == y;
    i :| 0 <= i < |s| && s[i] == kept[j];
  }

  /** Array.prototype.find: the first element that satisfies `p`, if any. */
  function Find<T>(s: seq<T>, p: T -> bool): (r: Option<T>)
    ensures r.None? <==> forall i :: 0 <= i < |s| ==> !p(s[i])
    ensures r.Some? ==> r.value in s && p(r.value)
  {
    if s == [] then None else if p(s[0]) then Some(s[0]) else Find(s[1..], p)
  }

  /** What `Find` returns is the element at the first position satisfying `p`. */
  lemma {:induction false} FindIsFirst<T>(s: seq<T>, p: T -> bool)
    requires Find(s, p).Some?
    ensures exists i :: 0 <= i < |s| && s[i] == Find(s, p).value &&
                        forall j :: 0 <= j < i ==> !p(s[j])
  {
    if !p(s[0]) {
      FindIsFirst(s[1..], p);
      var i :| 0 <= i < |s[1..]| && s[1..][i] == Find(s[1..], p).value &&
               forall j :: 0 <= j < i ==> !p(s[1..][j]);
      assert s[i + 1] == Find(s, p).value;
      forall j | 0 <= j < i + 1
        ensures !p(s[j])
      {
        if j > 0 { assert s[j] == s[1..][j - 1]; }
      }
    } else {
      assert s[0] == Find(s, p).value;
    }
  }

  /** `flatten`: list.reduce((acc, value) => [...acc, ...value], []), a left fold. */
  function Flatten<T>(xss: seq<seq<T>>): seq<T>
  {
    if xss == [] then [] else Flatten(xss[..|xss| - 1]) + xss[|xss| - 1]
  }

  /** Flattening a concatenation is concatenating the flattenings. */
  lemma {:induction false} FlattenAppend<T>(a: seq<seq<T>>, b: seq<seq<T>>)
    ensures Flatten(a + b) == Flatten(a) + Flatten(b)
  {
    if b == [] {
      assert a + b == a;
    } else {
      var init, x := b[..|b| - 1], b[|b| - 1];
      assert (a + b)[..|a + b| - 1] == a + init;
      assert (a + b)[|a + b| - 1] == x;
      assert Flatten(a + b) == Flatten(a + init) + x;
      FlattenAppend(a, init);
      assert Flatten(b) == Flatten(init) + x;
    }
  }

  /** The fold, read from the front: the first piece, then the rest. */
  lemma FlattenCons<T>(x: seq<T>, xs: seq<seq<T>>)
    ensures Flatten([x] + xs) == x + Flatten(xs)
  {
    FlattenAppend([x], xs);
    assert [x][..0] == [];
  }

  /** An element of the flattening comes from some piece, and every piece's elements are there. */
  lemma {:induction false} FlattenMembers<T>(xss: seq<seq<T>>, y: T)
    ensures y in Flatten(xss) <==> exists i :: 0 <= i < |xss| && y in xss[i]
  {
    if xss != [] {
      var init := xss[..|xss| - 1];
      FlattenMembers(init, y);
      if y in Flatten(xss) && y !in xss[|xss| - 1] {
        var i :| 0 <= i < |init| && y in init[i];
        assert xss[i] == init[i];
      }
      if y !in xss[|xss| - 1] && exists i :: 0 <= i < |xss| && y in xss[i] {
        var i :| 0 <= i < |xss| && y in xss[i];
        assert init[i] == xss[i];
      }
    }
  }

  predicate NoDuplicates<T(==)>(s: seq<T>)
  {
    forall i, j :: 0 <= i < j < |s| ==> s[i] != s[j]
  }

  /** `unique`: Array.from(new Set(list)). A Set remembers insertion order and
      ignores an element it already holds, so each element appears once, at
      the place of its first occurrence. */
  function Unique<T(==)>(s: seq<T>): (r: seq<T>)
    ensures NoDuplicates(r)
    ensures forall i :: 0 <= i < |r| ==> r[i] in s
    ensures forall i :: 0 <= i < |s| ==> s[i] in r
    ensures |r| <= |s|
  {
    if s == [] then []
    else
      var u := Unique(s[..|s| - 1]);
      var x := s[|s| - 1];
      assert forall y :: y in s[..|s| - 1] ==> y in s;
      assert s == s[..|s| - 1] + [x];
      if x in u then u else u + [x]
  }

  /** `Unique` keeps exactly the elements of its input. */
  lemma UniqueMembers<T>(s: seq<T>, y: T)
    ensures y in Unique(s) <==> y in s
  {
    if y in Unique(s) {
      var i :| 0 <= i < |Unique(s)| && Unique(s)[i] == y;
    }
    if y in s {
      var i :| 0 <= i < |s| && s[i] == y;
    }
  }

  /** The first element of the input stays first. */
  lemma UniqueHead<T>(x: T, rest: seq<T>)
    ensures |Unique([x] + rest)| >= 1 && Unique([x] + rest)[0] == x
  {
    var s := [x] + rest;
    var r := Unique(s);
    UniqueMembers(s, x);
    UniqueFirstOccurrenceOrder(s);
    FirstIndexIs(s, x, 0);
  }

  /** The position where `x` first occurs in `s`. */
  function FirstIndex<T(==)>(s: seq<T>, x: T): (k: nat)
    requires x in s
    ensures k < |s| && s[k] == x && x !in s[..k]
  {
    if s[0] == x then 0
    else
      var k := FirstIndex(s[1..], x);
      assert s[..k + 1] == [s[0]] + s[1..][..k];
      k + 1
  }

  /** The first occurrence is determined by the two facts `FirstIndex` promises. */
  lemma FirstIndexIs<T>(s: seq<T>, x: T, k: nat)
    requires k < |s| && s[k] == x && x !in s[..k]
    ensures FirstIndex(s, x) == k
  {
  }

  /** `Unique` lists the elements in the order of their first occurrences. */
  lemma {:induction false} UniqueFirstOccurrenceOrder<T>(s: seq<T>)
    ensures forall i, j :: 0 <= i < j < |Unique(s)| ==>
              FirstIndex(s, Unique(s)[i]) < FirstIndex(s, Unique(s)[j])
  {
    if s != [] {
      var init, x := s[..|s| - 1], s[|s| - 1];
      var u := Unique(init);
      UniqueFirstOccurrenceOrder(init);
      assert s == init + [x];
      forall y | y in init
        ensures FirstIndex(s, y) == FirstIndex(init, y)
      {
        var k := FirstIndex(init, y);
        assert s[..k] == init[..k];
        FirstIndexIs(s, y, k);
      }
      if x !in u {
        assert s[..|init|] == init;
        FirstIndexIs(s, x, |init|);
        assert Unique(s) == u + [x];
        forall i, j | 0 <= i < j < |Unique(s)|
          ensures FirstIndex(s, Unique(s)[i]) < FirstIndex(s, Unique(s)[j])
        {
          assert Unique(s)[i] == u[i] && u[i] in init;
          if j < |u| {
            assert Unique(s)[j] == u[j] && u[j] in init;
          }
        }
      } else {
        assert Unique(s) == u;
        forall i, j | 0 <= i < j < |u|
          ensures FirstIndex(s, u[i]) < FirstIndex(s, u[j])
        {
          assert u[i] in init && u[j] in init;
        }
      }
    }
  }

  /** A sequence that already has no duplicates is left as it is. */
  lemma {:induction false} UniqueOfDistinct<T>(s: seq<T>)
    requires NoDuplicates(s)
    ensures Unique(s) == s
  {
    if s != [] {
      var init := s[..|s| - 1];
      UniqueOfDistinct(init);
      assert s[|s| - 1] !in init;
      assert s == init + [s[|s| - 1]];
    }
  }

  /** Applying `unique` twice changes nothing. */
  lemma UniqueIdempotent<T>(s: seq<T>)
    ensures Unique(Unique(s)) == Unique(s)
  {
    UniqueOfDistinct(Unique(s));
  }

  /** A repeated element is dropped where it repeats: [x, y, x] becomes [x, y]. */
  lemma UniqueDropsRepeat<T>(x: T, y: T)
    requires x != y
    ensures Unique([x, y, x]) == [x, y]
  {
    assert [x, y, x][..2] == [x, y];
    assert [x, y][..1] == [x];
    assert [x][..0] == [];
  }
}
