/**
 * The contents of a cart as both front ends keep it: a sequence of lines,
 * one per product name, in the order the products were first added. The
 * Streamlit session cart is a Python dict (which keeps insertion order)
 * from name to quantity and price; the browser cart is a JavaScript array
 * of `{name, price, quantity}` objects.
 */
module CartLines {
  import opened Shop

  datatype Line = Line(name: Name, quantity: int, price: real)

  /** Position of the first line for `name` (`Array.find`, `name in cart`); `|items|` when there is none. */
  function Find(items: seq<Line>, name: Name): (i: nat)
    ensures i <= |items|
    ensures i < |items| ==> items[i].name == name
    ensures forall k :: 0 <= k < i ==> items[k].name != name
  {
    if items == [] then 0
    else if items[0].name == name then 0
    else 1 + Find(items[1..], name)
  }

  ghost predicate UniqueNames(items: seq<Line>)
  {
    forall i, j :: 0 <= i < j < |items| ==> items[i].name != items[j].name
  }

  /** The cart invariant: one line per product, and every quantity at least 1. */
  ghost predicate Valid(items: seq<Line>)
  {
    UniqueNames(items) && forall i :: 0 <= i < |items| ==> items[i].quantity >= 1
  }

  /** What one line costs: quantity times unit price. */
  function LineTotal(l: Line): real
  {
    l.quantity as real * l.price
  }

  /** Sum of the quantities, added up from the first line on. */
  function TotalQuantity(items: seq<Line>): int
  {
    if items == [] then 0 else TotalQuantity(items[..|items| - 1]) + items[|items| - 1].quantity
  }

  /** Sum of `quantity * price`, added up from the first line on (`reduce((sum, item) => ..., 0)`). */
  function TotalPrice(items: seq<Line>): real
  {
    if items == [] then 0.0 else TotalPrice(items[..|items| - 1]) + LineTotal(items[|items| - 1])
  }

  /** With quantities at least 1 and prices not negative, the total is not negative. */
  lemma {:induction false} TotalPriceNonNegative(items: seq<Line>)
    ensures (forall i :: 0 <= i < |items| ==> items[i].quantity >= 1 && items[i].price >= 0.0) ==>
      TotalPrice(items) >= 0.0
  {
    if items != [] && forall i :: 0 <= i < |items| ==> items[i].quantity >= 1 && items[i].price >= 0.0 {
      TotalPriceNonNegative(items[..|items| - 1]);
      var l := items[|items| - 1];
      assert LineTotal(l) >= 0.0 by {
        assert l.quantity as real >= 1.0;
      }
    }
  }

  /** Totals add up over a cart split in two. */
  lemma {:induction false} TotalsConcat(a: seq<Line>, b: seq<Line>)
    ensures TotalQuantity(a + b) == TotalQuantity(a) + TotalQuantity(b)
    ensures TotalPrice(a + b) == TotalPrice(a) + TotalPrice(b)
  {
    if b == [] {
      assert a + b == a;
    } else {
      var b', l := b[..|b| - 1], b[|b| - 1];
      assert (a + b)[..|a + b| - 1] == a + b';
      TotalsConcat(a, b');
    }
  }

  /** Replacing one line changes the totals by the difference between the two lines. */
  lemma TotalsUpdate(items: seq<Line>, i: nat, l: Line)
    requires i < |items|
    ensures TotalQuantity(items[i := l]) == TotalQuantity(items) - items[i].quantity + l.quantity
    ensures TotalPrice(items[i := l]) == TotalPrice(items) - LineTotal(items[i]) + LineTotal(l)
  {
    var front, back := items[..i], items[i + 1..];
    assert items == front + [items[i]] + back;
    assert items[i := l] == front + [l] + back;
    TotalsConcat(front + [items[i]], back);
    TotalsConcat(front + [l], back);
    TotalsConcat(front, [items[i]]);
    TotalsConcat(front, [l]);
  }

  /**
   * Adding one unit of `name`: an existing line gets one more unit and keeps
   * its price and its place; otherwise a line with quantity 1 at `price` is
   * appended. Nothing else changes, and the cart invariant is kept.
   */
  function AddOne(items: seq<Line>, name: Name, price: real): (r: seq<Line>)
    ensures Find(items, name) < |items| ==>
      var i := Find(items, name);
      |r| == |items| && r[i] == Line(name, items[i].quantity + 1, items[i].price) &&
      forall k :: 0 <= k < |items| && k != i ==> r[k] == items[k]
    ensures Find(items, name) == |items| ==> r == items + [Line(name, 1, price)]
    ensures Valid(items) ==> Valid(r)
  {
    var i := Find(items, name);
    if i < |items| then items[i := items[i].(quantity := items[i].quantity + 1)]
    else items + [Line(name, 1, price)]
  }

  /** One more unit of a line costs one more unit price. */
  lemma LineTotalBump(l: Line)
    ensures LineTotal(l.(quantity := l.quantity + 1)) == LineTotal(l) + l.price
  {
    assert (l.quantity + 1) as real == l.quantity as real + 1.0;
  }

  /**
   * One more unit adds one to the item count and one unit price to the
   * total: the line's stored price when the product was already in the cart,
   * `price` otherwise.
   */
  lemma AddOneTotals(items: seq<Line>, name: Name, price: real)
    ensures TotalQuantity(AddOne(items, name, price)) == TotalQuantity(items) + 1
    ensures TotalPrice(AddOne(items, name, price)) == TotalPrice(items) +
      (if Find(items, name) < |items| then items[Find(items, name)].price else price)
  {
    var i := Find(items, name);
    if i < |items| {
      BumpAtTotals(items, i);
      assert AddOne(items, name, price) == items[i := items[i].(quantity := items[i].quantity + 1)];
    } else {
      AppendTotals(items, Line(name, 1, price));
      assert AddOne(items, name, price) == items + [Line(name, 1, price)];
    }
  }

  /** One more unit on the line at `i` adds one to the item count and that line's price to the total. */
  lemma BumpAtTotals(items: seq<Line>, i: nat)
    requires i < |items|
    ensures TotalQuantity(items[i := items[i].(quantity := items[i].quantity + 1)]) == TotalQuantity(items) + 1
    ensures TotalPrice(items[i := items[i].(quantity := items[i].quantity + 1)]) == TotalPrice(items) + items[i].price
  {
    LineTotalBump(items[i]);
    TotalsUpdate(items, i, items[i].(quantity := items[i].quantity + 1));
  }

  /** Appending a line adds its quantity to the item count and its line total to the total. */
  lemma AppendTotals(items: seq<Line>, l: Line)
    ensures TotalQuantity(items + [l]) == TotalQuantity(items) + l.quantity
    ensures TotalPrice(items + [l]) == TotalPrice(items) + LineTotal(l)
  {
    TotalsConcat(items, [l]);
  }

  /** Units of `name` in the cart; 0 when it has no line. */
  function QuantityOf(items: seq<Line>, name: Name): int
  {
    var i := Find(items, name);
    if i < |items| then items[i].quantity else 0
  }

  /** Adding one unit of `name` raises its quantity by one and no other product's. */
  lemma AddOneQuantity(items: seq<Line>, name: Name, price: real, x: Name)
    ensures QuantityOf(AddOne(items, name, price), x) == QuantityOf(items, x) + (if x == name then 1 else 0)
  {
    var r := AddOne(items, name, price);
    var i := Find(items, name);
    if i < |items| {
      assert forall k :: 0 <= k < |r| ==> r[k].name == items[k].name;
      FindSameNames(items, r, x);
    } else {
      if x == name {
        FindSameNames(items, r, x);
        assert r[|items|].name == x;
      } else {
        FindSameNames(items, r[..|items|], x);
        assert r[..|items|] == items;
        if Find(items, x) == |items| {
          assert r[|items|].name != x;
        }
      }
    }
  }

  /** Finding by name only looks at the names. */
  lemma {:induction false} FindSameNames(a: seq<Line>, b: seq<Line>, x: Name)
    requires |a| <= |b|
    requires forall k :: 0 <= k < |a| ==> a[k].name == b[k].name
    ensures Find(a, x) < |a| ==> Find(b, x) == Find(a, x)
    ensures Find(a, x) == |a| ==> Find(b, x) >= |a|
  {
    if a != [] && a[0].name != x {
      FindSameNames(a[1..], b[1..], x);
    }
  }

  /** `items.filter(i => i.name !== name)`: every line for `name` dropped, the rest kept. */
  function Without(items: seq<Line>, name: Name): (r: seq<Line>)
    ensures Find(items, name) == |items| ==> r == items
  {
    if items == [] then []
    else if items[0].name == name then Without(items[1..], name)
    else [items[0]] + Without(items[1..], name)
  }

  /**
   * In a cart with one line per product, removing a product cuts out exactly
   * its line, keeps the others in order, keeps the invariant, and lowers the
   * totals by that line.
   */
  lemma {:induction false} WithoutCutsLine(items: seq<Line>, name: Name)
    requires UniqueNames(items)
    requires Find(items, name) < |items|
    ensures var i := Find(items, name);
      Without(items, name) == items[..i] + items[i + 1..]
  {
    var tail := items[1..];
    UniqueNamesTail(items);
    if items[0].name != name {
      var j := Find(tail, name);
      assert Find(items, name) == j + 1;
      WithoutCutsLine(tail, name);
      assert Without(items, name) == [items[0]] + (tail[..j] + tail[j + 1..]);
      CutCons(items, j);
    } else {
      NameOnlyAtHead(items);
      assert Without(items, name) == Without(tail, name) == tail;
      assert items[..0] + items[1..] == tail;
    }
  }

  /** Cutting position `j + 1` out of a sequence keeps its head in front of the tail with position `j` cut. */
  lemma CutCons(items: seq<Line>, j: nat)
    requires j + 1 < |items|
    ensures [items[0]] + (items[1..][..j] + items[1..][j + 1..]) == items[..j + 1] + items[j + 2..]
  {
    assert items[..j + 1] == [items[0]] + items[1..][..j];
    assert items[j + 2..] == items[1..][j + 1..];
  }

  lemma UniqueNamesTail(items: seq<Line>)
    requires UniqueNames(items) && items != []
    ensures UniqueNames(items[1..])
  {
    var tail := items[1..];
    forall i, j | 0 <= i < j < |tail| ensures tail[i].name != tail[j].name {
      assert tail[i] == items[i + 1] && tail[j] == items[j + 1];
    }
  }

  lemma NameOnlyAtHead(items: seq<Line>)
    requires UniqueNames(items) && items != []
    ensures Find(items[1..], items[0].name) == |items| - 1
  {
    var tail := items[1..];
    forall k | 0 <= k < |tail| ensures tail[k].name != items[0].name {
      assert tail[k] == items[k + 1];
    }
  }

  /** After removal no line for `name` is left. */
  lemma {:induction false} WithoutDropsName(items: seq<Line>, name: Name)
    ensures forall k :: 0 <= k < |Without(items, name)| ==> Without(items, name)[k].name != name
  {
    if items != [] {
      WithoutDropsName(items[1..], name);
    }
  }

  /** Removal keeps the cart invariant. */
  lemma WithoutValid(items: seq<Line>, name: Name)
    requires Valid(items)
    ensures Valid(Without(items, name))
  {
    var i := Find(items, name);
    if i < |items| {
      WithoutCutsLine(items, name);
      var r := Without(items, name);
      forall a, b | 0 <= a < b < |r| ensures r[a].name != r[b].name {
        var a', b' := if a < i then a else a + 1, if b < i then b else b + 1;
        assert r[a] == items[a'] && r[b] == items[b'];
      }
      forall a | 0 <= a < |r| ensures r[a].quantity >= 1 {
        assert r[a] == items[if a < i then a else a + 1];
      }
    }
  }

  /** Removal takes exactly the removed line off the totals. */
  lemma WithoutTotals(items: seq<Line>, name: Name)
    requires UniqueNames(items)
    requires Find(items, name) < |items|
    ensures TotalQuantity(Without(items, name)) == TotalQuantity(items) - items[Find(items, name)].quantity
    ensures TotalPrice(Without(items, name)) == TotalPrice(items) - LineTotal(items[Find(items, name)])
  {
    var i := Find(items, name);
    WithoutCutsLine(items, name);
    var front, back := items[..i], items[i + 1..];
    assert items == front + [items[i]] + back;
    TotalsConcat(front + [items[i]], back);
    TotalsConcat(front, [items[i]]);
    TotalsConcat(front, back);
  }

  /**
   * Setting the quantity of the line for `name` to `q`: every name, price
   * and every other line stays as it was; an absent name changes nothing.
   */
  function SetQuantity(items: seq<Line>, name: Name, q: int): (r: seq<Line>)
    ensures |r| == |items|
    ensures forall k :: 0 <= k < |r| ==> r[k].name == items[k].name && r[k].price == items[k].price
    ensures forall k :: 0 <= k < |r| && k != Find(items, name) ==> r[k] == items[k]
    ensures Find(items, name) < |items| ==> r[Find(items, name)].quantity == q
    ensures Valid(items) && q >= 1 ==> Valid(r)
  {
    var i := Find(items, name);
    if i < |items| then items[i := items[i].(quantity := q)] else items
  }
}
