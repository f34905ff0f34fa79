/**
 * The browser version of the shop (script.js): the fixed recommendation
 * table, the cart array with add, remove and quantity update, the running
 * trending counts that adding bumps, and the cart total.
 */
module BrowserCart {
  import opened Shop
  import opened CartLines

  /** An entry of the `recommendations` table: products and their prices, paired by position. */
  datatype Suggestions = Suggestions(products: seq<Name>, prices: seq<real>)

  /** A recommended product with its price. */
  datatype Offer = Offer(product: Name, price: real)

  const Recommendations: map<Name, Suggestions> := map[
    "Premia Tea Masala" := Suggestions(
      ["Sugar Cubes", "Elaichi", "Ginger Powder", "Honey", "Milk Powder"],
      [50.0, 100.0, 75.0, 120.0, 80.0]),
    "Laptop" := Suggestions(["Mouse", "Keyboard", "Cooling Pad"], [500.0, 800.0, 1000.0])]

  /** The trending counts the page starts with. */
  const InitialTrending: map<Name, int> := map[
    "Sugar Cubes" := 10, "Elaichi" := 20, "Laptop" := 15, "Mouse" := 12, "Cooling Pad" := 18]

  /**
   * The data behind `loadRecommendations()`: for a product in the table, its
   * i-th recommended product with its i-th price, in table order; for any
   * other product, nothing.
   */
  function LoadRecommendations(product: Name): (r: seq<Offer>)
    ensures product !in Recommendations ==> r == []
    ensures product in Recommendations ==>
      var s := Recommendations[product];
      |r| == |s.products| &&
      forall i :: 0 <= i < |r| ==> r[i].product == s.products[i] && r[i].price == s.prices[i]
  {
    if product in Recommendations then
      var s := Recommendations[product];
      assert |s.products| == |s.prices|;
      seq(|s.products|, i requires 0 <= i < |s.products| => Offer(s.products[i], s.prices[i]))
    else []
  }

  /** `trendingProducts[x] || 0`. */
  function CountOf(counts: map<Name, int>, x: Name): int
  {
    if x in counts then counts[x] else 0
  }

  /** The trending update of `addToCart`: one more for `item`, every other count kept. */
  function Bumped(counts: map<Name, int>, item: Name): (r: map<Name, int>)
    ensures r.Keys == counts.Keys + {item}
    ensures CountOf(r, item) == CountOf(counts, item) + 1
    ensures forall x :: x != item ==> CountOf(r, x) == CountOf(counts, x)
  {
    counts[item := CountOf(counts, item) + 1]
  }

  /** The trending counts after adding `items` to the cart one after another. */
  function BumpAll(counts: map<Name, int>, items: seq<Name>): map<Name, int>
  {
    if items == [] then counts else Bumped(BumpAll(counts, items[..|items| - 1]), items[|items| - 1])
  }

  /** Each product's trending count grows by the number of times it was added to the cart. */
  lemma {:induction false} BumpAllCounts(counts: map<Name, int>, items: seq<Name>)
    ensures forall x :: CountOf(BumpAll(counts, items), x) == CountOf(counts, x) + multiset(items)[x]
  {
    if items != [] {
      var front, last := items[..|items| - 1], items[|items| - 1];
      BumpAllCounts(counts, front);
      assert items == front + [last];
      assert multiset(items) == multiset(front) + multiset{last};
    }
  }

  /**
   * `Math.max(1, parseInt(input) || 1)`, with the parse given as an optional
   * integer: a positive number is taken as it is, anything else (no number,
   * zero, a negative number) gives 1.
   */
  function NewQuantity(parsed: Option<int>): (q: int)
    ensures q >= 1
    ensures parsed.Some? && parsed.value >= 1 ==> q == parsed.value
    ensures parsed.None? || parsed.value < 1 ==> q == 1
  {
    var n := if parsed.Some? && parsed.value != 0 then parsed.value else 1;
    if n < 1 then 1 else n
  }

  /** The page's state: `selectedItems` and `trendingProducts`. */
  class Page {
    var selectedItems: seq<Line>
    var trendingProducts: map<Name, int>

    ghost predicate Valid()
      reads this
    {
      CartLines.Valid(selectedItems)
    }

    constructor ()
      ensures Valid() && selectedItems == [] && trendingProducts == InitialTrending
    {
      selectedItems := [];
      trendingProducts := InitialTrending;
    }

    /**
     * `addToCart(item, price)`: an item already in the cart gets one more
     * unit and keeps its stored price and its place, a new one is appended
     * with quantity 1; its trending count goes up by one.
     */
    method AddToCart(item: Name, price: real)
      requires Valid()
      modifies this
      ensures Valid()
      ensures selectedItems == AddOne(old(selectedItems), item, price)
      ensures trendingProducts == Bumped(old(trendingProducts), item)
    {
      selectedItems := AddOne(selectedItems, item, price);
      trendingProducts := Bumped(trendingProducts, item);
    }

    /** `removeFromCart(name)`: the item's entry is filtered out; the trending counts stay. */
    method RemoveFromCart(name: Name)
      requires Valid()
      modifies this
      ensures Valid()
      ensures selectedItems == Without(old(selectedItems), name)
      ensures trendingProducts == old(trendingProducts)
    {
      WithoutValid(selectedItems, name);
      selectedItems := Without(selectedItems, name);
    }

    /** `updateQuantity(name, input)`: a present item's quantity becomes `NewQuantity(parsed)`; an absent item changes nothing. */
    method UpdateQuantity(name: Name, parsed: Option<int>)
      requires Valid()
      modifies this
      ensures Valid()
      ensures selectedItems == SetQuantity(old(selectedItems), name, NewQuantity(parsed))
      ensures trendingProducts == old(trendingProducts)
    {
      selectedItems := SetQuantity(selectedItems, name, NewQuantity(parsed));
    }

    /**
     * The total shown under the cart: the sum of price times quantity, 0 for
     * an empty cart, never negative while prices are not.
     */
    function CartTotal(): (total: real)
      reads this
      ensures selectedItems == [] ==> total == 0.0
      ensures Valid() && (forall i :: 0 <= i < |selectedItems| ==> selectedItems[i].price >= 0.0) ==> total >= 0.0
    {
      TotalPriceNonNegative(selectedItems);
      TotalPrice(selectedItems)
    }
  }
}
