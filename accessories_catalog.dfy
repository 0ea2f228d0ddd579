/**
  The accessories page (AccessoriesCatalog.tsx): a fixed catalogue,
  filtered by category, sorted by a chosen order, and cut into pages of
  nine; "Add to Cart" adds one of an accessory through the cart provider.

  The page's three pieces of state (category, page number, sort order) are
  the fields of a class; the list on screen is a function of them.
*/
module AccessoriesCatalog {
  import opened Wrappers
  import opened CartTypes
  import CartContext
  import LocalStorage
  import Lists

  datatype Accessory = Accessory(
    id: int,
    name: string,
    price: real,
    category: string,
    description: string,
    image: string)

  const ItemsPerPage: nat := 9

  /** The category buttons, "all" first. */
  const Categories: seq<string> := ["all", "cutters", "cases", "lighters", "humidors", "ashtrays"]

  /** The sort options of the select box. */
  const SortOptions: seq<string> := ["default", "price-low", "price-high", "name"]

  /** The catalogue the page ships with. */
  const Catalog: seq<Accessory> := [
    Accessory(1, "Premium Cigar Cutter", 1500.0, "cutters",
      "Professional-grade cigar cutter with stainless steel blades", "/accessories/cutter.jpg"),
    Accessory(2, "Leather Cigar Case", 2500.0, "cases",
      "Handcrafted leather case for 3 cigars", "/accessories/case.jpg"),
    Accessory(3, "Butane Torch Lighter", 1200.0, "lighters",
      "Windproof butane torch with adjustable flame", "/accessories/lighter.jpg"),
    Accessory(4, "Humidor", 5000.0, "humidors",
      "Spanish cedar humidor with digital hygrometer", "/accessories/humidor.jpg"),
    Accessory(5, "Cigar Ashtray", 1800.0, "ashtrays",
      "Crystal ashtray with cigar rests", "/accessories/ashtray.jpg"),
    Accessory(6, "Travel Humidor", 3500.0, "humidors",
      "Portable humidor for 5 cigars", "/accessories/travel-humidor.jpg")
  ]

  // Filtering

  function InCategory(selected: string): Accessory -> bool {
    (a: Accessory) => a.category == selected
  }

  /** "all" shows the whole catalogue; any other category keeps its members. */
  function FilterByCategory(list: seq<Accessory>, selected: string): seq<Accessory> {
    if selected == "all" then list else Lists.Filter(list, InCategory(selected))
  }

  lemma {:induction false} CategoryFilterSpec(list: seq<Accessory>, selected: string)
    ensures selected == "all" ==> FilterByCategory(list, selected) == list
    ensures selected != "all" ==>
              forall a :: a in FilterByCategory(list, selected) <==> a in list && a.category == selected
    ensures Lists.IsSubsequence(FilterByCategory(list, selected), list)
  {
    if selected == "all" {
      Lists.FilterKeepsAll(list, (a: Accessory) => true);
      Lists.FilterIsSubsequence(list, (a: Accessory) => true);
    } else {
      Lists.FilterIsSubsequence(list, InCategory(selected));
    }
  }

  // Sorting

  /** The comparator of the sort as a key: `a.price - b.price` for
      "price-low", `b.price - a.price` for "price-high", `localeCompare` of
      the names for "name" (the collation order is the parameter
      `collate`), and 0 for anything else. */
  function SortKey(sortBy: string, collate: string -> real): Accessory -> real {
    if sortBy == "price-low" then (a: Accessory) => a.price
    else if sortBy == "price-high" then (a: Accessory) => -a.price
    else if sortBy == "name" then (a: Accessory) => collate(a.name)
    else (a: Accessory) => 0.0
  }

  function SortAccessories(list: seq<Accessory>, sortBy: string, collate: string -> real): seq<Accessory> {
    Lists.SortByKey(list, SortKey(sortBy, collate))
  }

  /** Each order sorts what it names, every sort is a permutation, and the
      default order (comparator 0, stable sort) leaves the list as it was. */
  lemma {:induction false} SortOrder(list: seq<Accessory>, sortBy: string, collate: string -> real)
    ensures multiset(SortAccessories(list, sortBy, collate)) == multiset(list)
    ensures var r := SortAccessories(list, sortBy, collate);
            sortBy == "price-low" ==> forall i, j :: 0 <= i < j < |r| ==> r[i].price <= r[j].price
    ensures var r := SortAccessories(list, sortBy, collate);
            sortBy == "price-high" ==> forall i, j :: 0 <= i < j < |r| ==> r[i].price >= r[j].price
    ensures var r := SortAccessories(list, sortBy, collate);
            sortBy == "name" ==> forall i, j :: 0 <= i < j < |r| ==> collate(r[i].name) <= collate(r[j].name)
    ensures sortBy !in ["price-low", "price-high", "name"] ==> SortAccessories(list, sortBy, collate) == list
  {
    var key := SortKey(sortBy, collate);
    var r := Lists.SortByKey(list, key);
    assert Lists.SortedByKey(r, key);
    if sortBy !in ["price-low", "price-high", "name"] {
      Lists.SortByConstantKeyKeepsOrder(list, key, 0.0);
    }
  }

  // Pagination

  /** `Math.ceil(length / itemsPerPage)`. */
  function TotalPages(n: nat): nat {
    (n + ItemsPerPage - 1) / ItemsPerPage
  }

  lemma TotalPagesIsCeiling(n: nat)
    ensures TotalPages(n) * ItemsPerPage >= n
    ensures TotalPages(n) > 0 ==> (TotalPages(n) - 1) * ItemsPerPage < n
    ensures TotalPages(n) == 0 <==> n == 0
  {
  }

  /** `slice(startIndex, endIndex)` for the given page number. */
  function PageItems(list: seq<Accessory>, page: int): seq<Accessory> {
    Lists.Slice(list, (page - 1) * ItemsPerPage, (page - 1) * ItemsPerPage + ItemsPerPage)
  }

  lemma {:induction false} PageContents(list: seq<Accessory>, page: int)
    requires page >= 1
    ensures var r := PageItems(list, page);
            |r| <= ItemsPerPage
            && forall i :: 0 <= i < |r| ==> r[i] == list[(page - 1) * ItemsPerPage + i]
    ensures page <= TotalPages(|list|) ==> PageItems(list, page) != []
  {
    TotalPagesIsCeiling(|list|);
  }

  /** Pages 1 to k, one after another. */
  function PagesUpTo(list: seq<Accessory>, k: nat): seq<Accessory> {
    if k == 0 then [] else PagesUpTo(list, k - 1) + PageItems(list, k)
  }

  lemma {:induction false} PagesUpToIsPrefix(list: seq<Accessory>, k: nat)
    ensures PagesUpTo(list, k) == list[..if k * ItemsPerPage < |list| then k * ItemsPerPage else |list|]
  {
    if k > 0 {
      PagesUpToIsPrefix(list, k - 1);
      var a := (k - 1) * ItemsPerPage;
      var b := k * ItemsPerPage;
      if a < |list| {
        if b <= |list| {
          assert list[..a] + list[a..b] == list[..b];
        } else {
          assert list[..a] + list[a..] == list[..|list|];
        }
      }
    }
  }

  /** Pages 1 to `totalPages` together show the whole list, each item once
      and in order. */
  lemma PagesPartitionList(list: seq<Accessory>)
    ensures PagesUpTo(list, TotalPages(|list|)) == list
  {
    TotalPagesIsCeiling(|list|);
    PagesUpToIsPrefix(list, TotalPages(|list|));
  }

  /** With six accessories no category needs a second page, so the
      pagination controls never show for the shipped catalogue. */
  lemma ShippedCatalogFitsOnOnePage(selected: string)
    ensures TotalPages(|FilterByCategory(Catalog, selected)|) <= 1
  {
  }

  // The page

  function Max1(n: nat): nat {
    if n < 1 then 1 else n
  }

  class AccessoriesPage {
    const catalog: seq<Accessory>
    var selectedCategory: string
    var currentPage: int
    var sortBy: string

    function Filtered(): seq<Accessory>
      reads this
    {
      FilterByCategory(catalog, selectedCategory)
    }

    function PageCount(): nat
      reads this
    {
      TotalPages(|Filtered()|)
    }

    /** The accessories on screen. */
    function CurrentAccessories(collate: string -> real): seq<Accessory>
      reads this
    {
      PageItems(SortAccessories(Filtered(), sortBy, collate), currentPage)
    }

    /** The page number stays between 1 and the number of pages (1 when
        the filter leaves nothing). */
    ghost predicate Valid()
      reads this
    {
      1 <= currentPage <= Max1(PageCount())
    }

    constructor (catalog: seq<Accessory>)
      ensures this.catalog == catalog
      ensures selectedCategory == "all" && currentPage == 1 && sortBy == "default"
      ensures Valid()
    {
      this.catalog := catalog;
      selectedCategory := "all";
      currentPage := 1;
      sortBy := "default";
    }

    /** A category button: select it and go back to page 1. */
    method SelectCategory(category: string)
      modifies this
      ensures selectedCategory == category && currentPage == 1 && sortBy == old(sortBy)
      ensures Valid()
    {
      selectedCategory := category;
      currentPage := 1;
    }

    /** The sort select: the page number is kept, and stays valid because
        sorting does not change how many accessories there are. */
    method SetSortBy(order: string)
      requires Valid()
      modifies this
      ensures sortBy == order
      ensures selectedCategory == old(selectedCategory) && currentPage == old(currentPage)
      ensures Valid()
    {
      sortBy := order;
    }

    /** The previous-page button, shown only when there is more than one page. */
    method PreviousPage()
      requires Valid() && PageCount() > 1
      modifies this
      ensures currentPage == if old(currentPage) - 1 < 1 then 1 else old(currentPage) - 1
      ensures selectedCategory == old(selectedCategory) && sortBy == old(sortBy)
      ensures Valid()
    {
      currentPage := if currentPage - 1 < 1 then 1 else currentPage - 1;
    }

    /** The next-page button, shown only when there is more than one page. */
    method NextPage()
      requires Valid() && PageCount() > 1
      modifies this
      ensures currentPage == if PageCount() < old(currentPage) + 1 then PageCount() else old(currentPage) + 1
      ensures selectedCategory == old(selectedCategory) && sortBy == old(sortBy)
      ensures Valid()
    {
      currentPage := if PageCount() < currentPage + 1 then PageCount() else currentPage + 1;
    }
  }

  /** In a valid state with anything to show, the current page is not
      empty and holds at most nine accessories of the sorted list. */
  lemma {:induction false} CurrentPageShowsSortedItems(page: AccessoriesPage, collate: string -> real)
    requires page.Valid() && page.Filtered() != []
    ensures 0 < |page.CurrentAccessories(collate)| <= ItemsPerPage
    ensures forall a :: a in page.CurrentAccessories(collate) ==> a in page.Filtered()
  {
    var sorted := SortAccessories(page.Filtered(), page.sortBy, collate);
    SortOrder(page.Filtered(), page.sortBy, collate);
    assert |sorted| == |page.Filtered()| by {
      assert |multiset(sorted)| == |multiset(page.Filtered())|;
    }
    PageContents(sorted, page.currentPage);
    TotalPagesIsCeiling(|sorted|);
    forall a | a in page.CurrentAccessories(collate) ensures a in page.Filtered() {
      assert a in multiset(sorted);
    }
  }

  /** The cart line "Add to Cart" hands to the provider: the accessory's
      fields with quantity 1 and no rating, origin or strength. */
  function AsCartLine(a: Accessory): CartItem {
    CartItem(a.id, a.name, a.price, 1, a.category, a.description, a.image, None, None, None)
  }

  /** "Add to Cart": one more of the accessory. */
  method HandleAddToCart(cart: CartContext.CartProvider, a: Accessory)
    requires cart.Valid()
    modifies cart
    ensures cart.Valid()
    ensures cart.cartItems == CartContext.AddLine(old(cart.cartItems), AsCartLine(a))
    ensures cart.storage == old(cart.storage)[CartContext.CartKey := LocalStorage.Json(cart.cartItems)]
    ensures cart.cartCount == old(cart.cartCount) + 1
    ensures CartContext.UniqueIds(old(cart.cartItems)) ==> CartContext.UniqueIds(cart.cartItems)
  {
    cart.AddToCart(AsCartLine(a));
  }
}
