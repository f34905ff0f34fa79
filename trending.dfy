/**
 * The two rankings computed from the purchase log (app.py): the top
 * trending products over the whole log, and the products most bought in
 * the selected category, other than the selected product itself.
 */
module Trending {
  import opened Shop
  import opened Counting

  /** One row of the purchase log; the log's other columns are not read. */
  datatype PurchaseRecord = PurchaseRecord(productName: Name, category: string)

  /** How many products the recommendations panel shows. */
  const RelatedLimit: int := 5

  /** The "Product Name" column of the log. */
  function ProductNames(log: seq<PurchaseRecord>): seq<Name>
  {
    seq(|log|, i requires 0 <= i < |log| => log[i].productName)
  }

  /** The rows of the log whose category is `category`, in log order. */
  function InCategory(log: seq<PurchaseRecord>, category: string): seq<PurchaseRecord>
  {
    if log == [] then []
    else if log[0].category == category then [log[0]] + InCategory(log[1..], category)
    else InCategory(log[1..], category)
  }

  /** `get_top_trending_products(df_purchases, n)`. */
  function TopTrending(log: seq<PurchaseRecord>, n: int): seq<Sales>
  {
    MostCommon(Tally(ProductNames(log)), n)
  }

  /** `predict_related_products(selected, category, df_purchases)`. */
  function RelatedProducts(selected: Name, category: string, log: seq<PurchaseRecord>): seq<Sales>
  {
    var rows := InCategory(log, category);
    if rows == [] then [] else MostCommon(Pop(Tally(ProductNames(rows)), selected), RelatedLimit)
  }

  /** A product name occurs in the category's rows once per log row naming it in that category. */
  lemma {:induction false} CategoryCount(log: seq<PurchaseRecord>, category: string, x: Name)
    ensures multiset(ProductNames(InCategory(log, category)))[x] == multiset(log)[PurchaseRecord(x, category)]
  {
    if log != [] {
      var h, tail := log[0], log[1..];
      CategoryCount(tail, category, x);
      assert log == [h] + tail;
      var rest := InCategory(tail, category);
      if h.category == category {
        assert InCategory(log, category) == [h] + rest;
        assert ProductNames([h] + rest) == [h.productName] + ProductNames(rest);
        assert multiset(ProductNames([h] + rest)) == multiset{h.productName} + multiset(ProductNames(rest));
      } else {
        assert InCategory(log, category) == rest;
      }
      assert multiset(log) == multiset{h} + multiset(tail);
    }
  }

  /**
   * The top trending products: at most `n` of them, none for an empty log,
   * each a bought product with the number of log rows naming it, no product
   * twice.
   */
  lemma TopTrendingSpec(log: seq<PurchaseRecord>, n: int)
    ensures var r := TopTrending(log, n);
      && |r| <= (if n <= 0 then 0 else n)
      && (log == [] ==> r == [])
      && (forall i :: 0 <= i < |r| ==>
            r[i].product in ProductNames(log) && r[i].count == multiset(ProductNames(log))[r[i].product])
      && (forall i, j :: 0 <= i < j < |r| ==> r[i].product != r[j].product)
  {
    var names := ProductNames(log);
    var t := Tally(names);
    TallyProducts(names);
    TallyCounts(names);
    TallyOrder(names);
    MostCommonSpec(t, n, names);
    var r := TopTrending(log, n);
    forall i | 0 <= i < |r|
      ensures r[i].product in names && r[i].count == multiset(names)[r[i].product]
    {
      assert r[i] in t;
    }
    forall i, j | 0 <= i < j < |r|
      ensures r[i].product != r[j].product
    {
      assert Before(r[i], r[j], names);
    }
  }

  /** The top trending products come highest count first, equal counts in order of first purchase. */
  lemma TopTrendingOrder(log: seq<PurchaseRecord>, n: int)
    ensures var r := TopTrending(log, n);
      var names := ProductNames(log);
      && (forall i, j :: 0 <= i < j < |r| ==> r[i].count >= r[j].count)
      && (forall i, j :: 0 <= i < j < |r| && r[i].count == r[j].count ==>
            FirstIndex(names, r[i].product) < FirstIndex(names, r[j].product))
  {
    var names := ProductNames(log);
    TallyOrder(names);
    MostCommonSpec(Tally(names), n, names);
    var r := TopTrending(log, n);
    forall i, j | 0 <= i < j < |r|
      ensures r[i].count >= r[j].count
    {
      assert Before(r[i], r[j], names);
    }
  }

  /**
   * A bought product is left out of the top trending products only when `n`
   * are shown, each ranking before it: sold more often, or as often and
   * bought first earlier.
   */
  lemma TopTrendingLeftOut(log: seq<PurchaseRecord>, n: int)
    ensures var r := TopTrending(log, n);
      var names := ProductNames(log);
      forall x :: (x in names && forall i :: 0 <= i < |r| ==> r[i].product != x) ==>
        && |r| == (if n <= 0 then 0 else n)
        && (forall i :: 0 <= i < |r| ==> r[i].count >= multiset(names)[x])
        && (forall i :: 0 <= i < |r| ==> Before(r[i], Sales(x, multiset(names)[x]), names))
  {
    var names := ProductNames(log);
    var t := Tally(names);
    TallyProducts(names);
    TallyCounts(names);
    TallyOrder(names);
    var r := TopTrending(log, n);
    forall x | x in names && (forall i :: 0 <= i < |r| ==> r[i].product != x)
      ensures |r| == (if n <= 0 then 0 else n)
      ensures forall i :: 0 <= i < |r| ==> r[i].count >= multiset(names)[x]
      ensures forall i :: 0 <= i < |r| ==> Before(r[i], Sales(x, multiset(names)[x]), names)
    {
      var k :| 0 <= k < |t| && t[k].product == x;
      assert t[k] in t && t[k] !in r;
      assert t[k] == Sales(x, multiset(names)[x]);
      MostCommonLeftOut(t, n, names, t[k]);
      forall i | 0 <= i < |r|
        ensures r[i].count >= multiset(names)[x]
        ensures Before(r[i], Sales(x, multiset(names)[x]), names)
      {
        assert Before(r[i], t[k], names);
      }
    }
  }

  /** A log with no row in the category has nothing to filter in. */
  lemma {:induction false} InCategoryEmpty(log: seq<PurchaseRecord>, category: string)
    requires forall k :: 0 <= k < |log| ==> log[k].category != category
    ensures InCategory(log, category) == []
  {
    if log != [] {
      InCategoryEmpty(log[1..], category);
    }
  }

  /** The counter `predict_related_products` ranks, when the category has purchases. */
  function RelatedCounter(selected: Name, category: string, log: seq<PurchaseRecord>): seq<Sales>
  {
    Pop(Tally(ProductNames(InCategory(log, category))), selected)
  }

  /** That counter keeps its products in order of first purchase in the category. */
  lemma RelatedCounterOrder(selected: Name, category: string, log: seq<PurchaseRecord>)
    ensures FirstSeenOrder(RelatedCounter(selected, category, log), ProductNames(InCategory(log, category)))
  {
    var names := ProductNames(InCategory(log, category));
    TallyOrder(names);
    PopKeepsOrder(Tally(names), selected, names);
  }

  /** Each entry of that counter is a product other than the selected one, with its count in the category. */
  lemma RelatedCounterEntries(selected: Name, category: string, log: seq<PurchaseRecord>)
    ensures forall e :: e in RelatedCounter(selected, category, log) ==>
      e.product != selected && PurchaseRecord(e.product, category) in log &&
      e.count == multiset(log)[PurchaseRecord(e.product, category)]
  {
    var names := ProductNames(InCategory(log, category));
    var t := Tally(names);
    TallyCounts(names);
    forall e | e in Pop(t, selected)
      ensures e.product != selected && PurchaseRecord(e.product, category) in log
      ensures e.count == multiset(log)[PurchaseRecord(e.product, category)]
    {
      var k :| 0 <= k < |t| && t[k] == e;
      CategoryCount(log, category, e.product);
    }
  }

  /** Every product bought in the category, other than the selected one, has an entry in that counter. */
  lemma RelatedCounterComplete(selected: Name, category: string, log: seq<PurchaseRecord>)
    ensures forall x :: x != selected && PurchaseRecord(x, category) in log ==>
      exists e :: e in RelatedCounter(selected, category, log) && e.product == x
  {
    var names := ProductNames(InCategory(log, category));
    var t := Tally(names);
    TallyProducts(names);
    forall x | x != selected && PurchaseRecord(x, category) in log
      ensures exists e :: e in Pop(t, selected) && e.product == x
    {
      CategoryCount(log, category, x);
      assert PurchaseRecord(x, category) in multiset(log);
      assert x in multiset(names);
      assert x in names;
      var k :| 0 <= k < |t| && t[k].product == x;
      assert t[k] in Pop(t, selected);
    }
  }

  /**
   * The related products: at most five, never the selected product, no
   * product twice, each bought in the selected category with its count the
   * number of log rows naming it in that category; none when the category
   * has no purchases.
   */
  lemma RelatedProductsSpec(selected: Name, category: string, log: seq<PurchaseRecord>)
    ensures var r := RelatedProducts(selected, category, log);
      && |r| <= RelatedLimit
      && ((forall k :: 0 <= k < |log| ==> log[k].category != category) ==> r == [])
      && (forall i :: 0 <= i < |r| ==>
            r[i].product != selected && PurchaseRecord(r[i].product, category) in log &&
            r[i].count == multiset(log)[PurchaseRecord(r[i].product, category)])
      && (forall i, j :: 0 <= i < j < |r| ==> r[i].product != r[j].product)
  {
    var r := RelatedProducts(selected, category, log);
    if forall k :: 0 <= k < |log| ==> log[k].category != category {
      InCategoryEmpty(log, category);
    }
    if InCategory(log, category) != [] {
      var u := RelatedCounter(selected, category, log);
      var names := ProductNames(InCategory(log, category));
      RelatedCounterOrder(selected, category, log);
      RelatedCounterEntries(selected, category, log);
      MostCommonSpec(u, RelatedLimit, names);
      forall i | 0 <= i < |r|
        ensures r[i].product != selected && PurchaseRecord(r[i].product, category) in log
        ensures r[i].count == multiset(log)[PurchaseRecord(r[i].product, category)]
      {
        assert r[i] in r;
      }
      forall i, j | 0 <= i < j < |r|
        ensures r[i].product != r[j].product
      {
        assert Before(r[i], r[j], names);
      }
    }
  }

  /**
   * The related products come highest count first, equal counts in order of
   * first purchase in the category; a product of the category other than
   * the selected one is left out only when five are shown, each ranking
   * before it: sold more often in the category, or as often and bought
   * first earlier in the category.
   */
  lemma RelatedProductsRanked(selected: Name, category: string, log: seq<PurchaseRecord>)
    ensures var r := RelatedProducts(selected, category, log);
      var seen := ProductNames(InCategory(log, category));
      && (forall i, j :: 0 <= i < j < |r| ==> r[i].count >= r[j].count)
      && (forall i, j :: 0 <= i < j < |r| && r[i].count == r[j].count ==>
            FirstIndex(seen, r[i].product) < FirstIndex(seen, r[j].product))
      && (forall x :: (x != selected && PurchaseRecord(x, category) in log &&
            forall i :: 0 <= i < |r| ==> r[i].product != x) ==>
            && |r| == RelatedLimit
            && (forall i :: 0 <= i < |r| ==> r[i].count >= multiset(log)[PurchaseRecord(x, category)])
            && (forall i :: 0 <= i < |r| ==> Before(r[i], Sales(x, multiset(log)[PurchaseRecord(x, category)]), seen)))
  {
    var r := RelatedProducts(selected, category, log);
    var names := ProductNames(InCategory(log, category));
    if InCategory(log, category) == [] {
      forall x | PurchaseRecord(x, category) in log
        ensures false
      {
        CategoryCount(log, category, x);
      }
    } else {
      var u := RelatedCounter(selected, category, log);
      RelatedCounterOrder(selected, category, log);
      RelatedCounterEntries(selected, category, log);
      RelatedCounterComplete(selected, category, log);
      MostCommonSpec(u, RelatedLimit, names);
      forall i, j | 0 <= i < j < |r|
        ensures r[i].count >= r[j].count
      {
        assert Before(r[i], r[j], names);
      }
      forall x | x != selected && PurchaseRecord(x, category) in log && (forall i :: 0 <= i < |r| ==> r[i].product != x)
        ensures |r| == RelatedLimit
        ensures forall i :: 0 <= i < |r| ==> r[i].count >= multiset(log)[PurchaseRecord(x, category)]
        ensures forall i :: 0 <= i < |r| ==> Before(r[i], Sales(x, multiset(log)[PurchaseRecord(x, category)]), names)
      {
        var e :| e in u && e.product == x;
        assert e !in r;
        assert e == Sales(x, multiset(log)[PurchaseRecord(x, category)]);
        MostCommonLeftOut(u, RelatedLimit, names, e);
        forall i | 0 <= i < |r|
          ensures r[i].count >= multiset(log)[PurchaseRecord(x, category)]
          ensures Before(r[i], Sales(x, multiset(log)[PurchaseRecord(x, category)]), names)
        {
          assert Before(r[i], e, names);
        }
      }
    }
  }

  /** Counting the log X, Y, X, Z, X, Y gives X three times, Y twice and Z once, in that order. */
  lemma TallyExample()
    ensures Tally(["X", "Y", "X", "Z", "X", "Y"]) == [Sales("X", 3), Sales("Y", 2), Sales("Z", 1)]
  {
    var s1: seq<Name> := ["X"];
    assert Tally(s1) == [Sales("X", 1)] by { TallySnoc([], "X"); }
    var s2 := s1 + ["Y"];
    assert Tally(s2) == [Sales("X", 1), Sales("Y", 1)] by { TallySnoc(s1, "Y"); }
    var s3 := s2 + ["X"];
    assert Tally(s3) == [Sales("X", 2), Sales("Y", 1)] by { TallySnoc(s2, "X"); }
    var s4 := s3 + ["Z"];
    assert Tally(s4) == [Sales("X", 2), Sales("Y", 1), Sales("Z", 1)] by { TallySnoc(s3, "Z"); }
    var s5 := s4 + ["X"];
    assert Tally(s5) == [Sales("X", 3), Sales("Y", 1), Sales("Z", 1)] by { TallySnoc(s4, "X"); }
    var s6 := s5 + ["Y"];
    assert Position([Sales("X", 3), Sales("Y", 1), Sales("Z", 1)], "Y") == 1;
    assert Tally(s6) == [Sales("X", 3), Sales("Y", 2), Sales("Z", 1)] by { TallySnoc(s5, "Y"); }
    assert s6 == ["X", "Y", "X", "Z", "X", "Y"];
  }

  /** A log X, Y, X, Z, X, Y: the top two are X three times, then Y twice. */
  lemma TopTrendingExample()
    ensures TopTrending([PurchaseRecord("X", "c"), PurchaseRecord("Y", "c"), PurchaseRecord("X", "c"),
      PurchaseRecord("Z", "c"), PurchaseRecord("X", "c"), PurchaseRecord("Y", "c")], 2) == [Sales("X", 3), Sales("Y", 2)]
  {
    var log := [PurchaseRecord("X", "c"), PurchaseRecord("Y", "c"), PurchaseRecord("X", "c"),
      PurchaseRecord("Z", "c"), PurchaseRecord("X", "c"), PurchaseRecord("Y", "c")];
    assert ProductNames(log) == ["X", "Y", "X", "Z", "X", "Y"];
    TallyExample();
    var t := [Sales("X", 3), Sales("Y", 2), Sales("Z", 1)];
    assert SortByCount(t[2..]) == [Sales("Z", 1)];
    assert SortByCount(t[1..]) == [Sales("Y", 2), Sales("Z", 1)];
    assert SortByCount(t) == t;
  }
}
