/** The product catalogue page `src/pages/ProductGrid.jsx`: the search filter,
    the stock badge and the list of products that have a QR code. */
module ProductGrid {
  import opened Common
  import opened Strings
  import opened Records

  /** `field?.toLowerCase().includes(term)`, for a term already lower-cased: a
      missing field yields `undefined`, which is falsy. */
  predicate FieldMatches(field: Option<string>, term: string) {
    field.Some? && Includes(ToLower(field.value), term)
  }

  /** The `filteredProducts` predicate: the lower-cased search term occurs in
      the lower-cased name, description or category. */
  predicate KeepProduct(p: Product, searchTerm: string) {
    var t := ToLower(searchTerm);
    FieldMatches(p.name, t) || FieldMatches(p.description, t) || FieldMatches(p.category, t)
  }

  /** `filteredProducts`: the kept products, in catalogue order. */
  function FilteredProducts(products: seq<Product>, searchTerm: string): (r: seq<Product>)
    ensures Subsequence(r, products)
    ensures forall p :: p in r <==> p in products && KeepProduct(p, searchTerm)
  {
    Filter(products, p => KeepProduct(p, searchTerm))
  }

  /** A product that passes the search is shown as many times as it is listed. */
  lemma FilteredProductsCount(products: seq<Product>, searchTerm: string, p: Product)
    ensures multiset(FilteredProducts(products, searchTerm))[p] ==
              if KeepProduct(p, searchTerm) then multiset(products)[p] else 0
  {
    FilterMultiplicity(products, q => KeepProduct(q, searchTerm), p);
  }

  /** What the grid shows: the "No products found." message or the cards. */
  datatype GridView = NoProductsFound | Cards(products: seq<Product>)

  function Grid(products: seq<Product>, searchTerm: string): (v: GridView)
    ensures v.NoProductsFound? <==>
              forall i :: 0 <= i < |products| ==> !KeepProduct(products[i], searchTerm)
    ensures v.Cards? ==> v.products == FilteredProducts(products, searchTerm) && |v.products| > 0
  {
    var r := FilteredProducts(products, searchTerm);
    if |r| == 0 then
      NoProductsFound
    else
      assert r[0] in r;
      Cards(r)
  }

  lemma LowerCharIdempotent(c: char)
    ensures LowerChar(LowerChar(c)) == LowerChar(c)
  {
  }

  /** Lower-casing twice is lower-casing once. */
  lemma ToLowerIdempotent(s: string)
    ensures ToLower(ToLower(s)) == ToLower(s)
  {
    forall i | 0 <= i < |s| ensures ToLower(ToLower(s))[i] == ToLower(s)[i] {
      LowerCharIdempotent(s[i]);
    }
  }

  /** The search ignores the case of the term. */
  lemma SearchIgnoresTermCase(p: Product, searchTerm: string)
    ensures KeepProduct(p, searchTerm) <==> KeepProduct(p, ToLower(searchTerm))
  {
    ToLowerIdempotent(searchTerm);
  }

  /** Typing a product's whole name, in any case, finds it. */
  lemma SearchFindsName(p: Product, searchTerm: string)
    requires p.name.Some? && ToLower(p.name.value) == ToLower(searchTerm)
    ensures KeepProduct(p, searchTerm)
  {
    var t := ToLower(searchTerm);
    assert t[0..|t|] == t;
    assert OccursAt(ToLower(p.name.value), t, 0);
  }

  /** With an empty search term a product is kept exactly when it has a name,
      a description or a category, even an empty one. */
  lemma EmptySearchKeepsDefined(p: Product)
    ensures KeepProduct(p, "") <==> p.name.Some? || p.description.Some? || p.category.Some?
  {
    assert ToLower("") == "";
    if p.name.Some? { IncludesEmpty(ToLower(p.name.value)); }
    if p.description.Some? { IncludesEmpty(ToLower(p.description.value)); }
    if p.category.Some? { IncludesEmpty(ToLower(p.category.value)); }
  }

  /** With an empty search term the whole catalogue is shown exactly when
      no product lacks all three fields. */
  lemma EmptySearchShowsAll(products: seq<Product>)
    ensures FilteredProducts(products, "") == products <==>
              forall i :: 0 <= i < |products| ==>
                products[i].name.Some? || products[i].description.Some? || products[i].category.Some?
  {
    FilterAll(products, p => KeepProduct(p, ""));
    forall i | 0 <= i < |products|
      ensures KeepProduct(products[i], "") <==>
                products[i].name.Some? || products[i].description.Some? || products[i].category.Some?
    {
      EmptySearchKeepsDefined(products[i]);
    }
  }

  /** The badge of a product card. */
  function StockBadge(stock: int): (badge: string)
    ensures badge == "In Stock" <==> stock > 0
    ensures badge == "Out of Stock" <==> stock <= 0
  {
    if stock > 0 then "In Stock" else "Out of Stock"
  }

  /** `QRCodesList`: the products with a truthy QR code link, in catalogue
      order, or nothing at all (`null`) when there are none. */
  function QrCodesList(products: seq<Product>): (r: Option<seq<Product>>)
    ensures r.None? <==> forall i :: 0 <= i < |products| ==> !Truthy(products[i].qrCodeUrl)
    ensures r.Some? ==> |r.value| > 0 && Subsequence(r.value, products)
    ensures r.Some? ==> forall p :: p in r.value <==> p in products && Truthy(p.qrCodeUrl)
  {
    var withQr := Filter(products, (p: Product) => Truthy(p.qrCodeUrl));
    if |withQr| == 0 then
      None
    else
      assert withQr[0] in withQr;
      Some(withQr)
  }

  /** A product with a QR code is listed as many times as it is in the catalogue. */
  lemma QrCodesListCount(products: seq<Product>, p: Product)
    requires QrCodesList(products).Some?
    ensures multiset(QrCodesList(products).value)[p] ==
              if Truthy(p.qrCodeUrl) then multiset(products)[p] else 0
  {
    FilterMultiplicity(products, (q: Product) => Truthy(q.qrCodeUrl), p);
  }
}
