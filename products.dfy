/**
 * The product catalogue filter: a case-insensitive search over name and
 * description, a category selector and four price buckets, combined into one
 * predicate that filters the loaded product list in order; and the "add"
 * button, enabled unless the product is out of stock.
 *
 * Lower-casing is ASCII only: letters A to Z map to a to z, every other
 * character is unchanged.
 */
module Catalog {
  import opened Optional
  import opened Types
  import Cart

  // ---------------------------------------------------------------------------
  // Case-insensitive search
  // ---------------------------------------------------------------------------

  function LowerChar(c: char): (r: char)
    ensures 'A' <= c <= 'Z' ==> r as int == c as int + 32
    ensures !('A' <= c <= 'Z') ==> r == c
    ensures !('A' <= r <= 'Z')
  {
    if 'A' <= c <= 'Z' then (c as int + 32) as char else c
  }

  function ToLower(s: string): (r: string)
    ensures |r| == |s|
    ensures forall i :: 0 <= i < |s| ==> r[i] == LowerChar(s[i])
  {
    seq(|s|, i requires 0 <= i < |s| => LowerChar(s[i]))
  }

  /** Lower-casing twice is lower-casing once. */
  lemma ToLowerIdempotent(s: string)
    ensures ToLower(ToLower(s)) == ToLower(s)
  {
  }

  predicate StartsWith(text: string, part: string)
  {
    |part| <= |text| && text[..|part|] == part
  }

  /** `includes`: the part occurs somewhere in the text (the empty string occurs everywhere). */
  predicate Includes(text: string, part: string)
    decreases |text|
  {
    StartsWith(text, part) || (text != [] && Includes(text[1..], part))
  }

  /** The part occurs in the text starting at position i. */
  predicate OccursAt(text: string, part: string, i: int)
  {
    0 <= i <= |text| - |part| && text[i..i + |part|] == part
  }

  /** When the part is included, it occurs at some position. */
  lemma {:induction false} IncludedPartOccurs(text: string, part: string) returns (i: int)
    requires Includes(text, part)
    ensures OccursAt(text, part, i)
    decreases |text|
  {
    if StartsWith(text, part) {
      i := 0;
    } else {
      var j := IncludedPartOccurs(text[1..], part);
      assert text[j + 1..j + 1 + |part|] == text[1..][j..j + |part|];
      i := j + 1;
    }
  }

  /** A part occurring at some position is included. */
  lemma {:induction false} OccurringPartIncluded(text: string, part: string, i: int)
    requires OccursAt(text, part, i)
    ensures Includes(text, part)
    decreases i
  {
    if i == 0 {
      assert text[..|part|] == text[0..0 + |part|];
    } else {
      assert text[i..i + |part|] == text[1..][i - 1..i - 1 + |part|];
      OccurringPartIncluded(text[1..], part, i - 1);
    }
  }

  /** `Includes` holds exactly when the part occurs at some position of the text. */
  lemma IncludesAtSomePosition(text: string, part: string)
    ensures Includes(text, part) <==> exists i :: OccursAt(text, part, i)
  {
    if Includes(text, part) {
      var i := IncludedPartOccurs(text, part);
    }
    forall i | OccursAt(text, part, i)
      ensures Includes(text, part)
    {
      OccurringPartIncluded(text, part, i);
    }
  }

  /**
   * The search box: an empty query matches every product; otherwise the
   * lower-cased query must occur in the lower-cased name or in the
   * lower-cased description, and a product without a description only
   * matches by name.
   */
  predicate MatchesSearch(product: Product, search: string)
  {
    || search == ""
    || Includes(ToLower(product.name), ToLower(search))
    || (product.description.Some? && Includes(ToLower(product.description.value), ToLower(search)))
  }

  /** The search does not depend on the case of the query. */
  lemma SearchIgnoresQueryCase(product: Product, search: string)
    ensures MatchesSearch(product, search) == MatchesSearch(product, ToLower(search))
  {
    ToLowerIdempotent(search);
  }

  /** A product matches a query that occurs verbatim, lower-cased, in its lower-cased name. */
  lemma NameOccurrenceMatches(product: Product, search: string, i: int)
    requires OccursAt(ToLower(product.name), ToLower(search), i)
    ensures MatchesSearch(product, search)
  {
    IncludesAtSomePosition(ToLower(product.name), ToLower(search));
  }

  // ---------------------------------------------------------------------------
  // Category and price
  // ---------------------------------------------------------------------------

  /** The key a category is stored and selected under. */
  function CategoryKey(c: FurnitureCategory): (key: string)
    ensures key != "all"
  {
    match c
    case Tables => "tables"
    case Chairs => "chairs"
    case Beds => "beds"
    case Cabinets => "cabinets"
    case Shelving => "shelving"
    case Desks => "desks"
  }

  predicate MatchesCategory(product: Product, category: string)
  {
    category == "all" || CategoryKey(product.category) == category
  }

  /** Selecting a category's key keeps exactly the products of that category. */
  lemma CategorySelectsOne(product: Product, c: FurnitureCategory)
    ensures MatchesCategory(product, CategoryKey(c)) <==> product.category == c
  {
  }

  predicate MatchesPrice(product: Product, priceRange: string)
  {
    var p := product.basePrice;
    || priceRange == "all"
    || (priceRange == "0-500" && p <= 500.0)
    || (priceRange == "500-1000" && p > 500.0 && p <= 1000.0)
    || (priceRange == "1000-2000" && p > 1000.0 && p <= 2000.0)
    || (priceRange == "2000+" && p > 2000.0)
  }

  const PriceBuckets: seq<string> := ["0-500", "500-1000", "1000-2000", "2000+"]

  /** The bucket a price falls in. */
  function BucketOf(price: real): (bucket: string)
    ensures bucket in PriceBuckets
  {
    if price <= 500.0 then "0-500"
    else if price <= 1000.0 then "500-1000"
    else if price <= 2000.0 then "1000-2000"
    else "2000+"
  }

  /**
   * The four buckets partition the prices: a product matches a bucket exactly
   * when it is the bucket of its price. "all" matches every product and any
   * other selection matches none.
   */
  lemma PriceBucketsPartition(product: Product, priceRange: string)
    ensures priceRange in PriceBuckets ==>
      (MatchesPrice(product, priceRange) <==> priceRange == BucketOf(product.basePrice))
    ensures priceRange == "all" ==> MatchesPrice(product, priceRange)
    ensures priceRange != "all" && priceRange !in PriceBuckets ==> !MatchesPrice(product, priceRange)
  {
  }

  // ---------------------------------------------------------------------------
  // The filtered list
  // ---------------------------------------------------------------------------

  predicate Matches(product: Product, search: string, category: string, priceRange: string)
  {
    MatchesSearch(product, search) && MatchesCategory(product, category) && MatchesPrice(product, priceRange)
  }

  /** The products shown: those that pass all three filters, in the loaded order. */
  function FilterProducts(products: seq<Product>, search: string, category: string, priceRange: string): (shown: seq<Product>)
    ensures |shown| <= |products|
    ensures forall p :: p in shown <==> p in products && Matches(p, search, category, priceRange)
  {
    if products == [] then []
    else
      (if Matches(products[0], search, category, priceRange) then [products[0]] else [])
      + FilterProducts(products[1..], search, category, priceRange)
  }

  /** Filtering a concatenation filters each part and keeps them in order. */
  lemma {:induction false} FilterKeepsOrder(a: seq<Product>, b: seq<Product>, search: string, category: string, priceRange: string)
    ensures FilterProducts(a + b, search, category, priceRange)
         == FilterProducts(a, search, category, priceRange) + FilterProducts(b, search, category, priceRange)
  {
    if a == [] {
      assert a + b == b;
    } else {
      assert (a + b)[0] == a[0];
      assert (a + b)[1..] == a[1..] + b;
      FilterKeepsOrder(a[1..], b, search, category, priceRange);
    }
  }

  /** With an empty search and both selectors on "all", every loaded product is shown, in order. */
  lemma {:induction false} DefaultFiltersShowAll(products: seq<Product>)
    ensures FilterProducts(products, "", "all", "all") == products
  {
    if products != [] {
      assert Matches(products[0], "", "all", "all");
      assert products == [products[0]] + products[1..];
      DefaultFiltersShowAll(products[1..]);
    }
  }

  // ---------------------------------------------------------------------------
  // The add button
  // ---------------------------------------------------------------------------

  /** The button is disabled only when the stock is exactly zero. */
  predicate AddButtonEnabled(product: Product)
  {
    product.stockQuantity != 0
  }

  /** Clicking "add" on an enabled card adds one unit of the product to the cart. */
  method ClickAdd(cart: Cart.CartStore, product: Product, newId: Id)
    modifies cart
    ensures AddButtonEnabled(product) ==> cart.items == Cart.WithStandardAdded(old(cart.items), product, 1, newId)
    ensures !AddButtonEnabled(product) ==> cart.items == old(cart.items)
  {
    if AddButtonEnabled(product) {
      cart.AddStandardItem(product, 1, newId);
    }
  }
}
