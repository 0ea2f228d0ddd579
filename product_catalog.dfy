/**
  The cigar catalogue page (ProductCatalog.tsx): a search box and three
  selects narrow the product list, the options of each select are the
  distinct values found in the catalogue, and each product carries a
  quantity counter that "Add to Cart" hands to the cart provider.
*/
module ProductCatalog {
  import opened Wrappers
  import opened CartTypes
  import CartContext
  import LocalStorage
  import Lists

  datatype Product = Product(
    id: int,
    name: string,
    price: real,
    category: string,
    origin: string,
    strength: string,
    length: real,
    ringGauge: real,
    description: string,
    image: string)

  // Text matching

  /** `String.prototype.toLowerCase` on the ASCII letters. */
  function LowerChar(c: char): char {
    if 'A' <= c <= 'Z' then (c as int + 32) as char else c
  }

  function Lower(s: string): (r: string)
    ensures |r| == |s|
    ensures forall i :: 0 <= i < |s| ==> r[i] == LowerChar(s[i])
  {
    seq(|s|, i requires 0 <= i < |s| => LowerChar(s[i]))
  }

  lemma LowerIdempotent(s: string)
    ensures Lower(Lower(s)) == Lower(s)
  {
  }

  /** `String.prototype.includes`: `t` occurs in `s`. */
  predicate Contains(s: string, t: string)
    decreases |s|
  {
    |t| <= |s| && (s[..|t|] == t || Contains(s[1..], t))
  }

  predicate OccursAt(s: string, t: string, i: int) {
    0 <= i && i + |t| <= |s| && s[i..i + |t|] == t
  }

  /** The recursive search finds exactly the occurrences at some index. */
  lemma {:induction false} ContainsIffOccurs(s: string, t: string)
    ensures Contains(s, t) <==> exists i :: OccursAt(s, t, i)
    decreases |s|
  {
    if |t| <= |s| {
      if s[..|t|] == t {
        assert OccursAt(s, t, 0);
      } else {
        assert s != [];
        ContainsIffOccurs(s[1..], t);
        if Contains(s[1..], t) {
          var i :| OccursAt(s[1..], t, i);
          assert s[1..][i..i + |t|] == s[i + 1..i + 1 + |t|];
          assert OccursAt(s, t, i + 1);
        }
        if i :| OccursAt(s, t, i) {
          assert i != 0;
          assert s[1..][i - 1..i - 1 + |t|] == s[i..i + |t|];
          assert OccursAt(s[1..], t, i - 1);
        }
      }
    }
  }

  // Filtering

  /** The search term and the three selects. */
  datatype Filters = Filters(searchTerm: string, category: string, origin: string, strength: string)

  const NoFilters: Filters := Filters("", "all", "all", "all")

  predicate Matches(f: Filters, p: Product) {
    && Contains(Lower(p.name), Lower(f.searchTerm))
    && (f.category == "all" || p.category == f.category)
    && (f.origin == "all" || p.origin == f.origin)
    && (f.strength == "all" || p.strength == f.strength)
  }

  function MatchesFilters(f: Filters): Product -> bool {
    (p: Product) => Matches(f, p)
  }

  function FilteredProducts(products: seq<Product>, f: Filters): seq<Product> {
    Lists.Filter(products, MatchesFilters(f))
  }

  /** A product is shown exactly when its lower-cased name contains the
      lower-cased search term and it has every selected attribute; the
      shown products keep the catalogue order. */
  lemma {:induction false} FilteredProductsSpec(products: seq<Product>, f: Filters)
    ensures forall p :: p in FilteredProducts(products, f) <==>
              && p in products
              && Contains(Lower(p.name), Lower(f.searchTerm))
              && (f.category == "all" || p.category == f.category)
              && (f.origin == "all" || p.origin == f.origin)
              && (f.strength == "all" || p.strength == f.strength)
    ensures Lists.IsSubsequence(FilteredProducts(products, f), products)
  {
    Lists.FilterIsSubsequence(products, MatchesFilters(f));
  }

  /** An empty search with every select on "all" shows the whole catalogue. */
  lemma {:induction false} NoFiltersShowEverything(products: seq<Product>)
    ensures FilteredProducts(products, NoFilters) == products
  {
    forall p | p in products ensures Matches(NoFilters, p) {
      assert Lower(p.name)[..0] == Lower("");
    }
    Lists.FilterKeepsAll(products, MatchesFilters(NoFilters));
  }

  /** The search does not depend on the case of the term. */
  lemma {:induction false} SearchIgnoresCase(products: seq<Product>, f: Filters)
    ensures FilteredProducts(products, f) == FilteredProducts(products, f.(searchTerm := Lower(f.searchTerm)))
  {
    LowerIdempotent(f.searchTerm);
    Lists.FilterCongruent(products, MatchesFilters(f), MatchesFilters(f.(searchTerm := Lower(f.searchTerm))));
  }

  // The options of the selects

  /** `['all', ...new Set(values)]`. */
  function Options(values: seq<string>): seq<string> {
    ["all"] + Lists.Distinct(values)
  }

  function Categories(products: seq<Product>): (r: seq<string>)
    ensures |r| == |products| && forall i :: 0 <= i < |products| ==> r[i] == products[i].category
  {
    seq(|products|, i requires 0 <= i < |products| => products[i].category)
  }

  function Origins(products: seq<Product>): (r: seq<string>)
    ensures |r| == |products| && forall i :: 0 <= i < |products| ==> r[i] == products[i].origin
  {
    seq(|products|, i requires 0 <= i < |products| => products[i].origin)
  }

  function Strengths(products: seq<Product>): (r: seq<string>)
    ensures |r| == |products| && forall i :: 0 <= i < |products| ==> r[i] == products[i].strength
  {
    seq(|products|, i requires 0 <= i < |products| => products[i].strength)
  }

  /** A select offers "all" first, then every value in the catalogue once,
      in the order the values first occur. */
  lemma {:induction false} OptionsSpec(values: seq<string>)
    ensures var r := Options(values);
            |r| >= 1 && r[0] == "all"
            && (forall v :: v in r[1..] <==> v in values)
            && Lists.NoDuplicates(r[1..])
    ensures var d := Options(values)[1..];
            forall i, j, k :: 0 <= i < j < |d| && 0 <= k < |values| && values[k] == d[j] ==> d[i] in values[..k]
  {
    var r := Options(values);
    assert r[1..] == Lists.Distinct(values);
    Lists.DistinctFirstOccurrenceOrder(values);
  }

  /** Each option other than "all" selects at least one product. */
  lemma {:induction false} CategoryOptionsAreInhabited(products: seq<Product>, c: string)
    requires c in Options(Categories(products))[1..]
    ensures FilteredProducts(products, NoFilters.(category := c)) != []
  {
    OptionsSpec(Categories(products));
    var k :| 0 <= k < |products| && Categories(products)[k] == c;
    var p := products[k];
    FilteredProductsSpec(products, NoFilters.(category := c));
    assert Lower(p.name)[..0] == Lower("");
    assert p in FilteredProducts(products, NoFilters.(category := c));
  }

  // The page

  /** `quantity || 1`: a counter at zero adds one. */
  function QuantityToAdd(counter: int): int {
    if counter == 0 then 1 else counter
  }

  /** The cart line built by "Add to Cart": the product's fields, the
      quantity, its origin and strength, and no rating. */
  function ProductLine(p: Product, quantity: int): CartItem {
    CartItem(p.id, p.name, p.price, quantity, p.category, p.description, p.image,
             None, Some(p.origin), Some(p.strength))
  }

  function Max0(x: int): int {
    if x < 0 then 0 else x
  }

  class ProductPage {
    const products: seq<Product>
    var quantities: map<int, int>
    var filters: Filters

    /** `quantities[id] || 0`: the counter shown between the buttons. */
    function Counter(id: int): int
      reads this
    {
      if id in quantities then quantities[id] else 0
    }

    function Shown(): seq<Product>
      reads this
    {
      FilteredProducts(products, filters)
    }

    /** No counter goes below zero. */
    ghost predicate Valid()
      reads this
    {
      forall id :: id in quantities ==> quantities[id] >= 0
    }

    constructor (products: seq<Product>)
      ensures this.products == products
      ensures quantities == map[] && filters == NoFilters
      ensures Valid()
    {
      this.products := products;
      quantities := map[];
      filters := NoFilters;
    }

    /** The search box. */
    method SetSearchTerm(term: string)
      modifies this
      ensures filters == old(filters).(searchTerm := term) && quantities == old(quantities)
    {
      filters := filters.(searchTerm := term);
    }

    /** The category select. */
    method SetCategory(category: string)
      modifies this
      ensures filters == old(filters).(category := category) && quantities == old(quantities)
    {
      filters := filters.(category := category);
    }

    /** The origin select. */
    method SetOrigin(origin: string)
      modifies this
      ensures filters == old(filters).(origin := origin) && quantities == old(quantities)
    {
      filters := filters.(origin := origin);
    }

    /** The strength select. */
    method SetStrength(strength: string)
      modifies this
      ensures filters == old(filters).(strength := strength) && quantities == old(quantities)
    {
      filters := filters.(strength := strength);
    }

    /** The minus and plus buttons: the counter moves by `change` but not
        below zero; an untouched counter starts at zero; the other
        counters are unchanged. */
    method HandleQuantityChange(productId: int, change: int)
      requires Valid()
      modifies this
      ensures quantities == old(quantities)[productId := Max0(old(Counter(productId)) + change)]
      ensures Counter(productId) >= 0
      ensures change >= 0 ==> Counter(productId) == old(Counter(productId)) + change
      ensures forall id :: id != productId ==> Counter(id) == old(Counter(id))
      ensures filters == old(filters)
      ensures Valid()
    {
      quantities := quantities[productId := Max0(Counter(productId) + change)];
    }

    /** "Add to Cart": the counter's quantity (one when it is at zero) goes
        to the cart, and the counter goes back to zero. */
    method HandleAddToCart(cart: CartContext.CartProvider, product: Product)
      requires Valid() && cart.Valid()
      modifies this, cart
      ensures cart.Valid()
      ensures cart.cartItems == CartContext.AddLine(old(cart.cartItems), ProductLine(product, QuantityToAdd(old(Counter(product.id)))))
      ensures cart.storage == old(cart.storage)[CartContext.CartKey := LocalStorage.Json(cart.cartItems)]
      ensures cart.cartCount == old(cart.cartCount) + QuantityToAdd(old(Counter(product.id)))
      ensures QuantityToAdd(old(Counter(product.id))) >= 1
      ensures CartContext.AllPositive(old(cart.cartItems)) ==> CartContext.AllPositive(cart.cartItems)
      ensures CartContext.UniqueIds(old(cart.cartItems)) ==> CartContext.UniqueIds(cart.cartItems)
      ensures quantities == old(quantities)[product.id := 0] && Counter(product.id) == 0
      ensures filters == old(filters)
      ensures Valid()
    {
      var quantity := QuantityToAdd(Counter(product.id));
      cart.AddToCart(ProductLine(product, quantity));
      quantities := quantities[product.id := 0];
    }
  }
}
