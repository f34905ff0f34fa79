/**
 * The Streamlit session cart (app.py): `add_to_cart`, the cart table with
 * its totals, and submitting the order, which empties the cart. The cart
 * lives in the session state; here it is an object owned by the session.
 */
module SessionCart {
  import opened Shop
  import opened Catalog
  import opened CartLines

  datatype AddOutcome = Ok | NotFound

  /** One row of the cart table: Product, Quantity, Price, Total. */
  datatype CartRow = CartRow(product: Name, quantity: int, price: real, total: real)

  /** What the order confirmation reports. */
  datatype Order = Order(totalItems: int, totalPrice: real)

  /** The cart table, one row per cart entry in insertion order. */
  function Snapshot(items: seq<Line>): seq<CartRow>
  {
    seq(|items|, i requires 0 <= i < |items| =>
      CartRow(items[i].name, items[i].quantity, items[i].price, LineTotal(items[i])))
  }

  /** `cart_df["Quantity"].sum()`. */
  function QuantityColumnSum(rows: seq<CartRow>): int
  {
    if rows == [] then 0 else QuantityColumnSum(rows[..|rows| - 1]) + rows[|rows| - 1].quantity
  }

  /** `cart_df["Total"].sum()`. */
  function TotalColumnSum(rows: seq<CartRow>): real
  {
    if rows == [] then 0.0 else TotalColumnSum(rows[..|rows| - 1]) + rows[|rows| - 1].total
  }

  /** The totals shown on submission, read off the cart table. */
  function OrderOf(rows: seq<CartRow>): Order
  {
    Order(QuantityColumnSum(rows), TotalColumnSum(rows))
  }

  /**
   * The table's column sums are the cart's totals: the number of units and
   * the sum of quantity times unit price over the entries (0 for an empty cart).
   */
  lemma {:induction false} SnapshotTotals(items: seq<Line>)
    ensures OrderOf(Snapshot(items)) == Order(TotalQuantity(items), TotalPrice(items))
  {
    if items != [] {
      var front := items[..|items| - 1];
      SnapshotTotals(front);
      assert forall k :: 0 <= k < |front| ==> Snapshot(items)[k] == Snapshot(front)[k];
      assert Snapshot(items)[..|items| - 1] == Snapshot(front);
    }
  }

  /**
   * The cart after `add_to_cart(name)`: unchanged when the catalog has no
   * row named `name`, otherwise one more unit of `name` (at its catalog
   * price if it is new).
   */
  function Added(catalog: seq<Product>, items: seq<Line>, name: Name): seq<Line>
  {
    match LookupFinalPrice(catalog, name)
    case None => items
    case Some(price) => AddOne(items, name, price)
  }

  /** The cart after `add_to_cart` of each of `names` in turn. */
  function AddedAll(catalog: seq<Product>, items: seq<Line>, names: seq<Name>): seq<Line>
  {
    if names == [] then items
    else Added(catalog, AddedAll(catalog, items, names[..|names| - 1]), names[|names| - 1])
  }

  /**
   * After any sequence of adds to an empty cart, each catalog product has
   * as many units as it was added, a name missing from the catalog has
   * none, and the cart invariant (one entry per product, every quantity at
   * least 1) holds.
   */
  lemma {:induction false} AddedAllQuantities(catalog: seq<Product>, names: seq<Name>)
    ensures CartLines.Valid(AddedAll(catalog, [], names))
    ensures forall x ::
      QuantityOf(AddedAll(catalog, [], names), x) == (if LookupFinalPrice(catalog, x).Some? then multiset(names)[x] else 0)
  {
    if names != [] {
      var front, last := names[..|names| - 1], names[|names| - 1];
      AddedAllQuantities(catalog, front);
      assert names == front + [last];
      assert multiset(names) == multiset(front) + multiset{last};
      var before := AddedAll(catalog, [], front);
      match LookupFinalPrice(catalog, last)
      case None =>
      case Some(price) =>
        forall x
          ensures QuantityOf(AddedAll(catalog, [], names), x) == QuantityOf(before, x) + (if x == last then 1 else 0)
        {
          AddOneQuantity(before, last, price, x);
        }
    }
  }

  /** `st.session_state.cart`. */
  class Cart {
    /** The cart entries, in the order their products were first added. */
    var items: seq<Line>

    ghost predicate Valid()
      reads this
    {
      CartLines.Valid(items)
    }

    /** `st.session_state.cart = {}` at the start of a session. */
    constructor ()
      ensures Valid() && items == []
    {
      items := [];
    }

    /**
     * `add_to_cart(name)`: the price is looked up first; a name missing from
     * the catalog is reported as `NotFound` and leaves the cart as it was.
     * Otherwise an entry already in the cart gets one more unit at its stored
     * price, and a new product is appended with quantity 1 at its catalog price.
     */
    method AddToCart(catalog: seq<Product>, name: Name) returns (outcome: AddOutcome)
      requires Valid()
      modifies this
      ensures Valid()
      ensures items == Added(catalog, old(items), name)
      ensures outcome == (if LookupFinalPrice(catalog, name).Some? then Ok else NotFound)
    {
      var found := LookupFinalPrice(catalog, name);
      items := Added(catalog, items, name);
      outcome := if found.Some? then Ok else NotFound;
    }

    /**
     * The submit button, shown only while the cart has entries: it reports
     * the totals of the cart table and empties the cart. With an empty cart
     * there is no button, so nothing happens.
     */
    method SubmitOrder() returns (order: Option<Order>)
      requires Valid()
      modifies this
      ensures Valid() && items == []
      ensures old(items) == [] ==> order == None
      ensures old(items) != [] ==> order == Some(OrderOf(Snapshot(old(items))))
    {
      if items == [] {
        return None;
      }
      order := Some(OrderOf(Snapshot(items)));
      items := [];
    }
  }
}
