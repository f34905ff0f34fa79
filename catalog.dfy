/**
 * The product catalog after loading (app.py): missing descriptive fields
 * and prices are filled with fixed defaults, and every row gets its GST
 * amount and tax-inclusive final price. Also the first-match price lookup
 * that adding to the cart performs.
 */
module Catalog {
  import opened Shop

  const DefaultName := "Kitchen Appliance"
  const DefaultBrand := "Local/Unknown"
  const DefaultCategory := "Home & Kitchen"
  const DefaultSubCategory := "Home Appliances"

  /** The GST rate, in percent, applied to the whole catalog. */
  const GstRate: int := 18

  /** A catalog row as read: any field may be missing. */
  datatype RawProduct = RawProduct(
    name: Option<string>,
    brand: Option<string>,
    category: Option<string>,
    subCategory: Option<string>,
    price: Option<real>)

  /** A catalog row after cleaning, with the two derived price columns. */
  datatype Product = Product(
    name: string,
    brand: string,
    category: string,
    subCategory: string,
    price: real,
    gstAmount: real,
    finalPrice: real)

  /** `column.fillna(default)` on one cell. */
  function FillNa<T>(cell: Option<T>, default: T): T
  {
    match cell
    case Some(v) => v
    case None => default
  }

  /** The tax-inclusive price of a base price: the price plus GST at `GstRate` percent. */
  function FinalPrice(price: real): (f: real)
    ensures f == price * 118.0 / 100.0
    ensures price >= 0.0 ==> f >= price
    ensures f == 0.0 <==> price == 0.0
  {
    var gst := price * (GstRate as real / 100.0);
    price + gst
  }

  /** Cleaning one row: the default fills of app.py:14-18 and the GST columns of app.py:21-23. */
  function Normalize(row: RawProduct): (p: Product)
    ensures row.name.None? ==> p.name == DefaultName
    ensures row.brand.None? ==> p.brand == DefaultBrand
    ensures row.category.None? ==> p.category == DefaultCategory
    ensures row.subCategory.None? ==> p.subCategory == DefaultSubCategory
    ensures row.price.None? ==> p.price == 0.0 && p.finalPrice == 0.0
    ensures row.name.Some? ==> p.name == row.name.value
    ensures row.brand.Some? ==> p.brand == row.brand.value
    ensures row.category.Some? ==> p.category == row.category.value
    ensures row.subCategory.Some? ==> p.subCategory == row.subCategory.value
    ensures row.price.Some? ==> p.price == row.price.value
    ensures p.gstAmount == p.price * 18.0 / 100.0 && p.finalPrice == p.price + p.gstAmount
    ensures p.price >= 0.0 ==> p.finalPrice >= p.price
  {
    var price := FillNa(row.price, 0.0);
    Product(
      FillNa(row.name, DefaultName),
      FillNa(row.brand, DefaultBrand),
      FillNa(row.category, DefaultCategory),
      FillNa(row.subCategory, DefaultSubCategory),
      price,
      price * (GstRate as real / 100.0),
      FinalPrice(price))
  }

  /** A cleaned row read back as input: every field is present. */
  function Reload(p: Product): RawProduct
  {
    RawProduct(Some(p.name), Some(p.brand), Some(p.category), Some(p.subCategory), Some(p.price))
  }

  /** Cleaning every row of the catalog, in order. */
  function NormalizeCatalog(rows: seq<RawProduct>): seq<Product>
  {
    seq(|rows|, i requires 0 <= i < |rows| => Normalize(rows[i]))
  }

  /** Cleaning a cleaned catalog again changes nothing. */
  lemma NormalizeIdempotent(rows: seq<RawProduct>)
    ensures var once := NormalizeCatalog(rows);
      NormalizeCatalog(seq(|once|, i requires 0 <= i < |once| => Reload(once[i]))) == once
  {
  }

  /**
   * `df[df["Name"] == name]["Final_Price_After_GST"].values[0]`: the final
   * price of the first row named `name`, or `None` where the source's
   * indexing of an empty selection fails.
   */
  function LookupFinalPrice(catalog: seq<Product>, name: Name): (r: Option<real>)
    ensures r.None? <==> forall i :: 0 <= i < |catalog| ==> catalog[i].name != name
    ensures r.Some? ==> exists i :: (0 <= i < |catalog| && catalog[i].name == name &&
      r.value == catalog[i].finalPrice && forall j :: 0 <= j < i ==> catalog[j].name != name)
  {
    if catalog == [] then None
    else if catalog[0].name == name then Some(catalog[0].finalPrice)
    else
      var r := LookupFinalPrice(catalog[1..], name);
      assert r.Some? ==> exists i :: (1 <= i < |catalog| && catalog[i].name == name &&
        r.value == catalog[i].finalPrice && forall j :: 0 <= j < i ==> catalog[j].name != name) by {
        if r.Some? {
          var i :| 0 <= i < |catalog[1..]| && catalog[1..][i].name == name &&
            r.value == catalog[1..][i].finalPrice && forall j :: 0 <= j < i ==> catalog[1..][j].name != name;
          assert catalog[i + 1].name == name;
          assert forall j :: 1 <= j < i + 1 ==> catalog[j] == catalog[1..][j - 1];
        }
      }
      r
  }
}
