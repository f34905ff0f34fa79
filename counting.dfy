/**
 * Python's `collections.Counter` as the shop uses it: counting product
 * names in order of first appearance, `pop` of one key, and
 * `most_common(n)`, which is a stable sort by count, highest first,
 * cut to the first `n` entries.
 */
module Counting {
  import opened Shop

  /** One `(product, count)` pair of a counter. */
  datatype Sales = Sales(product: Name, count: nat)

  /** Position of the first occurrence of `x` in `s`; `|s|` when `x` does not occur. */
  function FirstIndex(s: seq<Name>, x: Name): (i: nat)
    ensures i <= |s|
    ensures i < |s| <==> x in s
    ensures i < |s| ==> s[i] == x
    ensures x !in s[..i]
  {
    if s == [] then 0
    else if s[0] == x then 0
    else
      var k := FirstIndex(s[1..], x);
      assert s[..k + 1] == [s[0]] + s[1..][..k];
      k + 1
  }

  /** Position of the entry for `x` in a counter; `|t|` when there is none. */
  function Position(t: seq<Sales>, x: Name): (i: nat)
    ensures i <= |t|
    ensures i < |t| ==> t[i].product == x
    ensures forall k :: 0 <= k < i ==> t[k].product != x
  {
    if t == [] then 0
    else if t[0].product == x then 0
    else 1 + Position(t[1..], x)
  }

  /** No product has two entries. */
  ghost predicate DistinctProducts(t: seq<Sales>)
  {
    forall i, j :: 0 <= i < j < |t| ==> t[i].product != t[j].product
  }

  /** The entries appear in the order in which their products first occur in `seen`. */
  ghost predicate FirstSeenOrder(t: seq<Sales>, seen: seq<Name>)
  {
    forall i, j :: 0 <= i < j < |t| ==> FirstIndex(seen, t[i].product) < FirstIndex(seen, t[j].product)
  }

  /** Highest count first; among equal counts, the product seen first in `seen` comes first. */
  ghost predicate RankedBy(r: seq<Sales>, seen: seq<Name>)
  {
    forall i, j :: 0 <= i < j < |r| ==> Before(r[i], r[j], seen)
  }

  /** `counter[x] += 1`: an existing entry is bumped where it stands, a new one is appended with count 1. */
  function Bump(t: seq<Sales>, x: Name): seq<Sales>
  {
    var i := Position(t, x);
    if i < |t| then t[i := Sales(x, t[i].count + 1)] else t + [Sales(x, 1)]
  }

  /** `Counter(names)`: one entry per distinct name, in order of first appearance. */
  function Tally(names: seq<Name>): seq<Sales>
  {
    if names == [] then [] else Bump(Tally(names[..|names| - 1]), names[|names| - 1])
  }

  /** Counting one more name is one `Bump`. */
  lemma TallySnoc(names: seq<Name>, x: Name)
    ensures Tally(names + [x]) == Bump(Tally(names), x)
  {
    assert (names + [x])[..|names|] == names;
  }

  /** Appending a name that already occurred does not move its first occurrence. */
  lemma {:induction false} FirstIndexAppend(s: seq<Name>, x: Name, y: Name)
    requires y in s
    ensures FirstIndex(s + [x], y) == FirstIndex(s, y)
  {
    if s[0] != y {
      assert (s + [x])[1..] == s[1..] + [x];
      FirstIndexAppend(s[1..], x, y);
    }
  }

  /** A name that did not occur before is first seen at the end. */
  lemma FirstIndexNew(s: seq<Name>, x: Name)
    requires x !in s
    ensures FirstIndex(s + [x], x) == |s|
  {
  }

  /** The shape of a counter after one more name: same products, or one new product at the end. */
  lemma BumpShape(t: seq<Sales>, x: Name)
    ensures Position(t, x) < |t| ==>
      |Bump(t, x)| == |t| &&
      (forall k :: 0 <= k < |t| ==> Bump(t, x)[k].product == t[k].product) &&
      Bump(t, x)[Position(t, x)].count == t[Position(t, x)].count + 1 &&
      (forall k :: 0 <= k < |t| && k != Position(t, x) ==> Bump(t, x)[k] == t[k])
    ensures Position(t, x) == |t| ==>
      Bump(t, x) == t + [Sales(x, 1)] && forall k :: 0 <= k < |t| ==> t[k].product != x
  {
  }

  /** A counter built from `names` holds each name that occurs in it, exactly once. */
  lemma {:induction false} TallyProducts(names: seq<Name>)
    ensures DistinctProducts(Tally(names))
    ensures forall x :: x in names <==> exists i :: 0 <= i < |Tally(names)| && Tally(names)[i].product == x
  {
    if names != [] {
      var p, x := names[..|names| - 1], names[|names| - 1];
      assert names == p + [x];
      TallyProducts(p);
      var t0 := Tally(p);
      var t := Tally(names);
      assert t == Bump(t0, x);
      BumpShape(t0, x);
      forall y
        ensures y in names <==> exists i :: 0 <= i < |t| && t[i].product == y
      {
        if y in names {
          if y == x {
            if Position(t0, x) == |t0| {
              assert t[|t0|].product == x;
            } else {
              assert t[Position(t0, x)].product == x;
            }
          } else {
            assert y in p;
            var i :| 0 <= i < |t0| && t0[i].product == y;
            assert t[i].product == y;
          }
        }
      }
    }
  }

  /** A counter built from `names` lists its products in the order in which they first occur. */
  lemma {:induction false} TallyOrder(names: seq<Name>)
    ensures FirstSeenOrder(Tally(names), names)
  {
    if names != [] {
      var p, x := names[..|names| - 1], names[|names| - 1];
      assert names == p + [x];
      TallyOrder(p);
      TallyProducts(p);
      var t0 := Tally(p);
      var t := Tally(names);
      assert t == Bump(t0, x);
      BumpShape(t0, x);
      forall k | 0 <= k < |t0|
        ensures FirstIndex(names, t0[k].product) == FirstIndex(p, t0[k].product) < |p|
      {
        assert t0[k].product in p;
        FirstIndexAppend(p, x, t0[k].product);
      }
      if Position(t0, x) == |t0| {
        assert x !in p;
        FirstIndexNew(p, x);
        assert t[|t0|].product == x;
      }
    }
  }

  /** The count a counter built from `names` holds for each product is the number of its occurrences. */
  lemma {:induction false} TallyCounts(names: seq<Name>)
    ensures forall i :: 0 <= i < |Tally(names)| ==>
      Tally(names)[i].count == multiset(names)[Tally(names)[i].product] > 0
  {
    if names != [] {
      var p, x := names[..|names| - 1], names[|names| - 1];
      assert names == p + [x];
      TallyCounts(p);
      TallyProducts(p);
      var t0 := Tally(p);
      var t := Tally(names);
      assert t == Bump(t0, x);
      BumpShape(t0, x);
      assert multiset(names) == multiset(p) + multiset{x};
      var i := Position(t0, x);
      forall k | 0 <= k < |t|
        ensures t[k].count == multiset(names)[t[k].product] > 0
      {
        if k < |t0| && k != i {
          assert t[k] == t0[k];
          assert t0[k].product != x;
        } else if k < |t0| {
          assert t[k].count == t0[k].count + 1 && t[k].product == x;
        } else {
          assert x !in p;
          assert t[k] == Sales(x, 1);
        }
      }
    }
  }

  /** `counter.pop(x, None)`: the entry for `x`, if any, is dropped; the rest keep their order. */
  function Pop(t: seq<Sales>, x: Name): (r: seq<Sales>)
    ensures forall e :: e in r <==> e in t && e.product != x
    ensures |r| <= |t|
  {
    if t == [] then []
    else if t[0].product == x then Pop(t[1..], x)
    else [t[0]] + Pop(t[1..], x)
  }

  /** Dropping entries keeps the others in their first-seen order and keeps them distinct. */
  lemma {:induction false} PopKeepsOrder(t: seq<Sales>, x: Name, seen: seq<Name>)
    requires FirstSeenOrder(t, seen)
    ensures FirstSeenOrder(Pop(t, x), seen)
  {
    if t != [] {
      PopKeepsOrder(t[1..], x, seen);
      var rest := Pop(t[1..], x);
      if t[0].product != x {
        var r := Pop(t, x);
        assert r == [t[0]] + rest;
        forall k | 0 <= k < |rest|
          ensures FirstIndex(seen, t[0].product) < FirstIndex(seen, rest[k].product)
        {
          assert rest[k] in rest;
          var m :| 0 <= m < |t[1..]| && t[1..][m] == rest[k];
          assert t[m + 1] == rest[k];
        }
      }
    }
  }

  /** Stable insertion: `e` goes in front of the first entry whose count it equals or beats. */
  function Insert(e: Sales, s: seq<Sales>): seq<Sales>
  {
    if s == [] || s[0].count <= e.count then [e] + s else [s[0]] + Insert(e, s[1..])
  }

  /** `sorted(items, key=count, reverse=True)`, which keeps equal counts in their input order. */
  function SortByCount(t: seq<Sales>): seq<Sales>
  {
    if t == [] then [] else Insert(t[0], SortByCount(t[1..]))
  }

  /** `a` ranks before `b`: a higher count, or the same count and seen earlier. */
  ghost predicate Before(a: Sales, b: Sales, seen: seq<Name>)
  {
    a.count > b.count || (a.count == b.count && FirstIndex(seen, a.product) < FirstIndex(seen, b.product))
  }

  /** Putting in front an entry that ranks before all of a ranked sequence keeps it ranked. */
  lemma RankedCons(a: Sales, s: seq<Sales>, seen: seq<Name>)
    requires RankedBy(s, seen)
    requires forall k :: 0 <= k < |s| ==> Before(a, s[k], seen)
    ensures RankedBy([a] + s, seen)
  {
    var r := [a] + s;
    forall i, j | 0 <= i < j < |r|
      ensures Before(r[i], r[j], seen)
    {
      if i == 0 {
        assert r[j] == s[j - 1];
      } else {
        assert r[i] == s[i - 1] && r[j] == s[j - 1];
      }
    }
  }

  /** Insertion adds exactly the one entry. */
  lemma {:induction false} InsertPermutes(e: Sales, s: seq<Sales>)
    ensures multiset(Insert(e, s)) == multiset(s) + multiset{e}
  {
    if s != [] && s[0].count > e.count {
      InsertPermutes(e, s[1..]);
      assert s == [s[0]] + s[1..];
    }
  }

  /** Inserting an entry seen before all others into a ranked sequence keeps it ranked. */
  lemma {:induction false} InsertRanked(e: Sales, s: seq<Sales>, seen: seq<Name>)
    requires RankedBy(s, seen)
    requires forall k :: 0 <= k < |s| ==> FirstIndex(seen, e.product) < FirstIndex(seen, s[k].product)
    ensures RankedBy(Insert(e, s), seen)
  {
    if s == [] || s[0].count <= e.count {
      forall k | 0 <= k < |s|
        ensures Before(e, s[k], seen)
      {
        if k > 0 { assert Before(s[0], s[k], seen); }
      }
      RankedCons(e, s, seen);
    } else {
      InsertRanked(e, s[1..], seen);
      InsertPermutes(e, s[1..]);
      var tail := Insert(e, s[1..]);
      forall k | 0 <= k < |tail|
        ensures Before(s[0], tail[k], seen)
      {
        assert tail[k] in multiset(tail);
        if tail[k] != e {
          assert tail[k] in multiset(s[1..]);
          var m :| 0 <= m < |s[1..]| && s[1..][m] == tail[k];
          assert s[m + 1] == tail[k];
        }
      }
      RankedCons(s[0], tail, seen);
    }
  }

  /** The stable sort by count is a permutation of its input. */
  lemma {:induction false} SortByCountPermutes(t: seq<Sales>)
    ensures multiset(SortByCount(t)) == multiset(t)
    ensures |SortByCount(t)| == |t|
  {
    if t != [] {
      SortByCountPermutes(t[1..]);
      InsertPermutes(t[0], SortByCount(t[1..]));
      assert t == [t[0]] + t[1..];
      assert |multiset(SortByCount(t))| == |multiset(t)|;
    }
  }

  /**
   * The stable sort by count is a permutation of its input, ordered by count
   * (highest first) and, among equal counts, by first appearance in `seen`.
   */
  lemma {:induction false} SortByCountRanked(t: seq<Sales>, seen: seq<Name>)
    requires FirstSeenOrder(t, seen)
    ensures multiset(SortByCount(t)) == multiset(t)
    ensures |SortByCount(t)| == |t|
    ensures RankedBy(SortByCount(t), seen)
  {
    SortByCountPermutes(t);
    if t != [] {
      var tail := t[1..];
      assert FirstSeenOrder(tail, seen) by {
        forall i, j | 0 <= i < j < |tail|
          ensures FirstIndex(seen, tail[i].product) < FirstIndex(seen, tail[j].product)
        {
          assert tail[i] == t[i + 1] && tail[j] == t[j + 1];
        }
      }
      SortByCountRanked(tail, seen);
      var s := SortByCount(tail);
      forall k | 0 <= k < |s|
        ensures FirstIndex(seen, t[0].product) < FirstIndex(seen, s[k].product)
      {
        assert s[k] in multiset(tail);
        var m :| 0 <= m < |tail| && tail[m] == s[k];
        assert t[m + 1] == s[k];
      }
      InsertRanked(t[0], s, seen);
    }
  }

  /** `counter.most_common(n)`: the sorted entries cut to the first `n`; none for `n <= 0`. */
  function MostCommon(t: seq<Sales>, n: int): seq<Sales>
  {
    var sorted := SortByCount(t);
    if n <= 0 then [] else if n < |sorted| then sorted[..n] else sorted
  }

  /**
   * `most_common(n)` returns `min(n, |t|)` entries of the counter (none for
   * `n <= 0`), all taken from it, ranked by count and first appearance.
   */
  lemma MostCommonSpec(t: seq<Sales>, n: int, seen: seq<Name>)
    requires FirstSeenOrder(t, seen)
    ensures |MostCommon(t, n)| == if n <= 0 then 0 else if n < |t| then n else |t|
    ensures forall e :: e in MostCommon(t, n) ==> e in t
    ensures RankedBy(MostCommon(t, n), seen)
  {
    SortByCountRanked(t, seen);
    var sorted := SortByCount(t);
    var r := MostCommon(t, n);
    assert r == sorted[..|r|];
    forall e | e in r
      ensures e in t
    {
      assert e in multiset(sorted);
    }
  }

  /**
   * An entry of the counter that `most_common(n)` leaves out ranks after
   * every entry it returns, and is left out only when `n` entries are returned.
   */
  lemma MostCommonLeftOut(t: seq<Sales>, n: int, seen: seq<Name>, e: Sales)
    requires FirstSeenOrder(t, seen)
    requires e in t && e !in MostCommon(t, n)
    ensures |MostCommon(t, n)| == (if n <= 0 then 0 else n)
    ensures forall i :: 0 <= i < |MostCommon(t, n)| ==> Before(MostCommon(t, n)[i], e, seen)
  {
    SortByCountRanked(t, seen);
    var sorted := SortByCount(t);
    var r := MostCommon(t, n);
    assert r == sorted[..|r|];
    assert e in multiset(sorted);
    var k :| 0 <= k < |sorted| && sorted[k] == e;
    assert k >= |r|;
  }
}
