# Stogie's storefront: the client-side state, in Dafny

This project models the browser-side logic of Stogie's, a React/TypeScript
cigar and accessories storefront:

- the cart provider (`contexts/CartContext.tsx`): an ordered list of cart
  lines keyed by id, its derived item count, and its mirror in local storage
  under `"cart"`;
- the cart persistence service with a seven-day expiry
  (`services/cartStorageService.ts`, `types/cart.ts`);
- the exchange-rate service with its 24-hour cache, network fallback chain
  and ten-currency default table (`services/exchangeRateService.ts`,
  `types/currency.ts`);
- the three-currency conversion context (`contexts/CurrencyContext.tsx`);
- the cart page's subtotal, 18% GST and total, and its buttons
  (`CartPage.tsx`);
- the accessories page's category filter, sort and nine-per-page pagination
  (`AccessoriesCatalog.tsx`);
- the product catalogue's search and filters, select options and per-product
  quantity counters (`ProductCatalog.tsx`);
- the wishlist page (`WishlistPage.tsx`);
- the older cart and wishlist that `App.tsx` still defines beside the
  provider.

The modelling choices are these:

- Local storage is a `map<string, Stored<T>>`. A record holds either the JSON
  encoding of a value, which decodes back to that value, or text that does
  not decode.
- The clock is a `now: int` parameter in milliseconds.
- The network response is an `Option` of a rate map.
- A failing `setItem` is a boolean input.
- Numbers are `real`. Ids and quantities are `int`.
- React state that a component replaces through setters becomes a class
  field that the methods assign.
- An effect that follows every change becomes a `SaveEffect` method. Each
  operation calls it, and a `Valid()` predicate states what it
  re-establishes.
- The list updaters passed to the setters are pure functions.
- `map`, `filter`, `reduce`, `findIndex`, `slice`, `[...new Set(..)]` and the
  stable `sort` are written out in module `Lists`.

Modules: `Wrappers`, `LocalStorage`, `Lists`, `CartTypes`, `CartContext`,
`CartStorage`, `Currencies`, `ExchangeRates`, `CurrencyContext`, `CartPage`,
`AccessoriesCatalog`, `ProductCatalog`, `Wishlist`, `LegacyApp`.

## Model

| member | source | states |
|---|---|---|
| LocalStorage.Fetch | project-main/src/contexts/CartContext.tsx:32-34 | `getItem` plus the truthiness test plus `JSON.parse`. There are three outcomes. No record, or the empty string, is Missing. A decodable record is Parsed, with exactly the stored value. Any other record is Corrupt. |
| LocalStorage.Write | project-main/src/contexts/CartContext.tsx:42 | After `setItem`, reading the key gives back the written value. Every other key is untouched. |
| LocalStorage.Remove | project-main/src/services/cartStorageService.ts:51 | After `removeItem`, the key is gone. Every other key is untouched. |
| Lists.Filter | project-main/src/contexts/CartContext.tsx:76 | `Array.prototype.filter` keeps exactly the elements that satisfy the predicate, with their multiplicities. It never grows the list. |
| Lists.FilterIsSubsequence | project-main/src/contexts/CartContext.tsx:81 | A filtered list keeps the original relative order: it is a subsequence of the input. |
| Lists.FilterKeepsAll | project-main/src/contexts/CartContext.tsx:76 | A filter that every element passes returns the list unchanged. |
| Lists.Slice | project-main/src/AccessoriesCatalog.tsx:146 | `slice(start, end)` with in-range bounds is the sub-range. An end past the length stops at the end. A start past the length gives the empty list. |
| Lists.Distinct | project-main/src/ProductCatalog.tsx:107-109 | `[...new Set(xs)]` has exactly the members of `xs`, each once. |
| Lists.DistinctFirstOccurrenceOrder | project-main/src/ProductCatalog.tsx:107-109 | The distinct values appear in order of first occurrence. Wherever a later value occurs in the input, every earlier value has already occurred. |
| Lists.SortByKey | project-main/src/AccessoriesCatalog.tsx:130-141 | Sorting with comparator `key(a) - key(b)` yields a list ordered by key that is a permutation of the input. |
| Lists.InsertByKeyKeepsSorted | project-main/src/AccessoriesCatalog.tsx:130 | Inserting into a key-ordered list keeps it key-ordered. |
| Lists.SortByConstantKeyKeepsOrder | project-main/src/AccessoriesCatalog.tsx:138-139 | A comparator that returns 0 for every pair leaves the order of a stable sort unchanged. |
| Lists.SortIsStable | project-main/src/AccessoriesCatalog.tsx:130-141 | The sort is stable: the elements of any one key appear in the sorted list in their input order. |
| CartTypes.CartConstants | project-main/src/types/cart.ts:20-22 | The expiry is 604,800,000 ms (seven days), the declared cap is 10 and the service key is `"stogies_cart"`. |
| CartContext.ProviderKeyDiffersFromServiceKey | project-main/src/types/cart.ts:20 | The provider's key `"cart"` differs from the service's key `"stogies_cart"`, so the two never share a record. |
| CartContext.FindIndex | project-main/src/contexts/CartContext.tsx:49 | `findIndex` returns -1 exactly when no line has the id. Otherwise it returns the first line with the id. |
| CartContext.AddLine | project-main/src/contexts/CartContext.tsx:47-65 | The updater of `addToCart`. Its contract is stated by `AddToExistingLine`, `AddNewLine`, `AddKeepsIdsUnique`, `AddKeepsQuantitiesPositive` and `AddGrowsCount`. |
| CartContext.AddToExistingLine | project-main/src/contexts/CartContext.tsx:49-58 | Adding an id already in the cart grows its first line by `item.quantity`, or by 1 when that is 0. The length and every other line are unchanged. |
| CartContext.AddNewLine | project-main/src/contexts/CartContext.tsx:59-64 | Adding a new id appends exactly one line, with quantity `item.quantity`, or 1 when that is 0. The earlier lines keep their order. |
| CartContext.AddKeepsIdsUnique | project-main/src/contexts/CartContext.tsx:49-64 | An add never creates a second line with the same id. The id list stays the same, or gains the new id at the end. |
| CartContext.AddKeepsQuantitiesPositive | project-main/src/contexts/CartContext.tsx:49-64 | Adding a non-negative quantity keeps every quantity positive. |
| CartContext.TotalQuantityUpdate | project-main/src/contexts/CartContext.tsx:43 | Replacing one line changes the sum of quantities by the difference of the two quantities. |
| CartContext.TotalQuantityAppend | project-main/src/contexts/CartContext.tsx:43 | Appending a line adds its quantity to the sum. |
| CartContext.AddGrowsCount | project-main/src/contexts/CartContext.tsx:46-67 | After an add, the item count grows by exactly the requested quantity (the quantity, or 1 when it is 0). |
| CartContext.UpdateLines | project-main/src/contexts/CartContext.tsx:70-77 | The updater of `updateQuantity`: clamp with `Math.max(0, …)`, then drop lines at 0. Its contract is stated by `UpdateQuantityShape`, `UpdateQuantityOnLine`, `UpdateQuantityAbsentId` and `UpdateKeepsIdsUnique`. |
| CartContext.UpdateQuantityShape | project-main/src/contexts/CartContext.tsx:69-77 | After `updateQuantity`, every quantity is positive. The ids are a subsequence of the old ids. A line is kept exactly when its clamped quantity is positive. |
| CartContext.UpdateQuantityOnLine | project-main/src/contexts/CartContext.tsx:71-76 | With distinct ids, the line with the id ends at `q + change` when that is positive and is gone otherwise. Other positive lines are kept, and no other line appears. |
| CartContext.UpdateQuantityAbsentId | project-main/src/contexts/CartContext.tsx:71-76 | An absent id leaves a cart of positive lines unchanged. |
| CartContext.UpdateKeepsIdsUnique | project-main/src/contexts/CartContext.tsx:69-77 | `updateQuantity` keeps the ids distinct. |
| CartContext.RemoveLines | project-main/src/contexts/CartContext.tsx:81 | The updater of `removeItem`. Its contract is stated by `RemoveLinesSpec` and `RemoveKeepsIdsUnique`. |
| CartContext.RemoveLinesSpec | project-main/src/contexts/CartContext.tsx:80-82 | `removeItem` removes every line with the id and keeps the rest in order. An absent id changes nothing. |
| CartContext.RemoveKeepsIdsUnique | project-main/src/contexts/CartContext.tsx:80-82 | `removeItem` keeps the ids distinct. |
| CartContext.CartProvider.FromItems | project-main/src/contexts/CartContext.tsx:27-44 | The provider after mount holds the given list and count, and its record stores that list. |
| CartContext.CartProvider.SaveEffect | project-main/src/contexts/CartContext.tsx:40-44 | The save effect writes the list under `"cart"` and sets the count to the sum of quantities. |
| CartContext.CartProvider.AddToCart | project-main/src/contexts/CartContext.tsx:46-67 | The list becomes the add updater's result and the count grows by the requested quantity. The record is rewritten. Distinct ids stay distinct, and positive quantities stay positive. |
| CartContext.CartProvider.UpdateQuantity | project-main/src/contexts/CartContext.tsx:69-78 | The list becomes the clamp-and-drop updater's result, and every quantity is then positive. The record and the count follow, and distinct ids stay distinct. |
| CartContext.CartProvider.RemoveItem | project-main/src/contexts/CartContext.tsx:80-82 | No line with the id remains. The record and the count follow, and both invariants are kept. |
| CartContext.CartProvider.RemoveAll | project-main/src/contexts/CartContext.tsx:84-86 | The list is empty, the count is 0 and `[]` is stored. |
| CartContext.Mount | project-main/src/contexts/CartContext.tsx:30-38 | A stored list is adopted with its count and storage stays as it was. No record gives the empty cart with `[]` written. A corrupt record makes mount fail. |
| CartStorage.Stamped | project-main/src/services/cartStorageService.ts:17-20 | The saved record is the state with only `lastUpdated` replaced by the current time. |
| CartStorage.CartStorageService.SaveCart | project-main/src/services/cartStorageService.ts:15-26 | A successful write stores the stamped state under `"stogies_cart"`. A failed write leaves storage unchanged and reports "Failed to save cart. Please try again.". |
| CartStorage.CartStorageService.LoadCart | project-main/src/services/cartStorageService.ts:28-47 | The result and the new storage are those of the load specification: a missing record gives null; a corrupt or expired record gives null and is cleared. |
| CartStorage.CartStorageService.ClearCart | project-main/src/services/cartStorageService.ts:49-56 | Removes the `"stogies_cart"` record and nothing else. |
| CartStorage.LoadMissing | project-main/src/services/cartStorageService.ts:30-31 | No record: the load returns null and storage is unchanged. |
| CartStorage.LoadCorrupt | project-main/src/services/cartStorageService.ts:42-46 | A record that does not parse: the load returns null and the record is removed. |
| CartStorage.LoadExpiry | project-main/src/services/cartStorageService.ts:36-39 | A record older than 604,800,000 ms gives null and is removed. One exactly that old, or younger, is returned unchanged. |
| CartStorage.SaveThenLoad | project-main/src/services/cartStorageService.ts:15-41 | A save at `t` followed by a load at most seven days later returns the saved state with `lastUpdated = t`. |
| CartStorage.SaveThenLoadTooLate | project-main/src/services/cartStorageService.ts:36-39 | A load more than seven days after the save returns null and clears the record. |
| CartStorage.IsCartExpired | project-main/src/services/cartStorageService.ts:58-60 | Expired means older than seven days, strictly. Its contract is stated by `LoadExpiry` and `ExpiredIffDiscarded`. |
| CartStorage.ExpiredIffDiscarded | project-main/src/services/cartStorageService.ts:58-60 | For a decodable record, the load discards exactly when `isCartExpired` holds. |
| Currencies.TenCurrencies | project-main/src/types/currency.ts:1 | There are exactly ten currency codes, listed without repetition. |
| Currencies.InfoIsKeyedByCode | project-main/src/types/currency.ts:10-21 | The table entry for every code carries that code. |
| Currencies.DefaultIsRupee | project-main/src/types/currency.ts:23 | The default currency is INR, whose symbol is ₹. |
| Currencies.SymbolsDoNotDetermineCode | project-main/src/types/currency.ts:15-19 | JPY and CNY share the symbol ¥, so any map from symbols back to codes gets some code wrong. |
| ExchangeRates.DefaultRates | project-main/src/services/exchangeRateService.ts:85-98 | The default table has a positive rate for all ten codes, and INR is 1. |
| ExchangeRates.FromResponse | project-main/src/services/exchangeRateService.ts:63-74 | A fetched table has INR pinned to 1. Every other code is taken from the response exactly when the response has it. |
| ExchangeRates.ExchangeRateService.constructor | project-main/src/services/exchangeRateService.ts:15-17 | Construction holds the cached table when it is fresh, and nothing otherwise. |
| ExchangeRates.ExchangeRateService.SaveCachedRates | project-main/src/services/exchangeRateService.ts:40-51 | On success the cache is written with timestamp `now` and then held. On a write failure both the cache and the held table stay unchanged. |
| ExchangeRates.ExchangeRateService.FetchExchangeRates | project-main/src/services/exchangeRateService.ts:53-83 | A response is returned with INR pinned, and cached when the write succeeds. Without a response it returns the held table, else the defaults, and changes nothing. |
| ExchangeRates.ExchangeRateService.GetRates | project-main/src/services/exchangeRateService.ts:100-102 | Returns the held table if there is one, else the defaults. |
| ExchangeRates.ServiceSlot.GetInstance | project-main/src/services/exchangeRateService.ts:19-24 | The first call creates the service from the cache. Every later call returns that same instance. |
| ExchangeRates.CacheFreshness | project-main/src/services/exchangeRateService.ts:26-34 | A cached table is adopted exactly when it is younger than 86,400,000 ms (strict). |
| ExchangeRates.CorruptCacheIgnored | project-main/src/services/exchangeRateService.ts:35-37 | A corrupt cache leaves the held table empty. |
| ExchangeRates.FallbackOrder | project-main/src/services/exchangeRateService.ts:78-82 | The fallback is the held table first, then the defaults, which cover every code with INR = 1. |
| ExchangeRates.FetchedTableTotal | project-main/src/services/exchangeRateService.ts:63-74 | A fetched table covers every code exactly when the response has all nine non-INR codes. |
| ExchangeRates.RatesAlwaysTotal | project-main/src/services/exchangeRateService.ts:100-102 | When any held table is total, the rates in use are total. |
| CurrencyContext.RateTableTotal | project-main/src/contexts/CurrencyContext.tsx:12-16 | The table has a positive rate for each of INR, USD and GBP, and INR's rate is 1. |
| CurrencyContext.Rate | project-main/src/contexts/CurrencyContext.tsx:12-16 | Every rate looked up is positive. |
| CurrencyContext.Format | project-main/src/contexts/CurrencyContext.tsx:27-35 | The formatter is given the converted amount, in the selected currency. |
| CurrencyContext.ConvertInrIsIdentity | project-main/src/contexts/CurrencyContext.tsx:23-25 | Converting to INR returns the price unchanged. |
| CurrencyContext.ConvertMonotone | project-main/src/contexts/CurrencyContext.tsx:23-25 | Conversion keeps non-negative prices non-negative and preserves their order, both weak and strict. |
| CurrencyContext.ConvertAdditive | project-main/src/contexts/CurrencyContext.tsx:23-25 | Converting a sum equals summing the conversions. |
| CurrencyContext.CurrencyProvider.constructor | project-main/src/contexts/CurrencyContext.tsx:21 | The initial currency is INR. |
| CurrencyContext.CurrencyProvider.SetCurrency | project-main/src/contexts/CurrencyContext.tsx:21 | `setCurrency` changes only the selected currency. |
| CurrencyContext.CurrencyProvider.ConvertPrice | project-main/src/contexts/CurrencyContext.tsx:23-25 | With INR selected, conversion is the identity. Non-negative prices stay non-negative. |
| CurrencyContext.CurrencyProvider.FormatPrice | project-main/src/contexts/CurrencyContext.tsx:27-35 | Formatting is applied to `convertPrice(price)` in the selected currency. |
| CartPage.Subtotal | project-main/src/CartPage.tsx:13-15 | `calculateSubtotal`, a left fold of price × quantity. Its contract is stated by `EmptyCartCostsNothing`, `SubtotalAppend` and `SubtotalBounds`. |
| CartPage.Tax | project-main/src/CartPage.tsx:17-19 | `calculateTax`, 18% of the subtotal. Its contract is stated by `TotalIsSubtotalWithGst`. |
| CartPage.Total | project-main/src/CartPage.tsx:21-23 | `calculateTotal`. Its contract is stated by `TotalIsSubtotalWithGst` and `SubtotalBounds`. |
| CartPage.EmptyCartCostsNothing | project-main/src/CartPage.tsx:13-15 | An empty cart has subtotal, tax and total 0. |
| CartPage.TotalIsSubtotalWithGst | project-main/src/CartPage.tsx:17-23 | The total is 1.18 times the subtotal, and the tax is their difference. |
| CartPage.SubtotalBounds | project-main/src/CartPage.tsx:13-23 | With non-negative prices and quantities, 0 ≤ subtotal ≤ total. |
| CartPage.SubtotalAppend | project-main/src/CartPage.tsx:13-15 | One more line adds `price × quantity` to the subtotal. |
| CartPage.OrderSummary | project-main/src/CartPage.tsx:137-146 | Each of the three figures goes to the formatter in the selected currency. Its amount is the rupee figure converted: the subtotal, 18% of it, and 1.18 times it. The amounts handed to the formatter add up: total = subtotal + GST. |
| CartPage.Press | project-main/src/CartPage.tsx:106-150 | Minus and plus call `updateQuantity(id, ∓1)`, trash calls `removeItem(id)` and the button calls `removeAll`. The provider stays valid and quantities stay positive. |
| CartPage.MinusOnSingleRemovesLine | project-main/src/CartPage.tsx:106 | Minus on a line of quantity 1 removes it. |
| CartPage.ListField | project-main/src/contexts/CartContext.tsx:90-97 | The provider's value carries the list under `cartItems` only. Destructuring any other name, `items` among them, gives `undefined`. |
| CartPage.RenderCart | project-main/src/CartPage.tsx:11-14 | A render throws exactly when the list is read under a name other than `cartItems`. Otherwise an empty cart shows the notice, and a non-empty one shows its lines and the order summary. |
| CartPage.CartPageAsWrittenThrows | project-main/src/CartPage.tsx:11 | As written, the page reads `items`, so every render throws, whatever the cart holds. |
| CartPage.CartPageShowsSummary | project-main/src/CartPage.tsx:66-146 | Reading `cartItems`, a non-empty cart shows its lines and the converted summary, whose total is 1.18 times the subtotal. |
| AccessoriesCatalog.FilterByCategory | project-main/src/AccessoriesCatalog.tsx:126-128 | `filteredAccessories`. Its contract is stated by `CategoryFilterSpec`. |
| AccessoriesCatalog.SortAccessories | project-main/src/AccessoriesCatalog.tsx:130-141 | `sortedAccessories`. Its contract is stated by `SortOrder` and `Lists.SortIsStable`. |
| AccessoriesCatalog.CategoryFilterSpec | project-main/src/AccessoriesCatalog.tsx:126-128 | `"all"` shows the whole catalogue. Any other category shows exactly its members, in catalogue order. |
| AccessoriesCatalog.SortOrder | project-main/src/AccessoriesCatalog.tsx:130-141 | Every order is a permutation. `price-low` gives non-decreasing prices and `price-high` non-increasing ones. `name` follows the collation. Any other value keeps the order. |
| AccessoriesCatalog.TotalPages | project-main/src/AccessoriesCatalog.tsx:143 | `Math.ceil(n / 9)`. Its contract is stated by `TotalPagesIsCeiling`. |
| AccessoriesCatalog.PageItems | project-main/src/AccessoriesCatalog.tsx:144-146 | `currentAccessories`. Its contract is stated by `PageContents`, `PagesUpToIsPrefix` and `PagesPartitionList`. |
| AccessoriesCatalog.TotalPagesIsCeiling | project-main/src/AccessoriesCatalog.tsx:143 | `totalPages` is the least number of nine-item pages that holds the list. It is 0 only for the empty list. |
| AccessoriesCatalog.PageContents | project-main/src/AccessoriesCatalog.tsx:144-146 | Page p holds at most nine items, namely those from position (p−1)·9 on. Every page up to `totalPages` is non-empty. |
| AccessoriesCatalog.PagesUpToIsPrefix | project-main/src/AccessoriesCatalog.tsx:144-146 | Pages 1..k together are the first min(9k, n) items. |
| AccessoriesCatalog.PagesPartitionList | project-main/src/AccessoriesCatalog.tsx:143-146 | Pages 1..`totalPages` together are the whole list, each item once and in order. |
| AccessoriesCatalog.ShippedCatalogFitsOnOnePage | project-main/src/AccessoriesCatalog.tsx:73-122 | The six shipped accessories never need a second page, so the pagination bar never shows. |
| AccessoriesCatalog.AccessoriesPage.constructor | project-main/src/AccessoriesCatalog.tsx:67-69 | The page starts at category `"all"`, page 1 and order `"default"`. |
| AccessoriesCatalog.AccessoriesPage.SelectCategory | project-main/src/AccessoriesCatalog.tsx:204-207 | Selecting a category resets the page to 1 and keeps the page number valid. |
| AccessoriesCatalog.AccessoriesPage.SetSortBy | project-main/src/AccessoriesCatalog.tsx:224 | Changing the order keeps the page number, which stays valid. |
| AccessoriesCatalog.AccessoriesPage.PreviousPage | project-main/src/AccessoriesCatalog.tsx:290 | The page becomes `max(1, p − 1)` and stays within 1..`totalPages`. |
| AccessoriesCatalog.AccessoriesPage.NextPage | project-main/src/AccessoriesCatalog.tsx:300 | The page becomes `min(totalPages, p + 1)` and stays within 1..`totalPages`. |
| AccessoriesCatalog.CurrentPageShowsSortedItems | project-main/src/AccessoriesCatalog.tsx:143-146 | In a valid state with anything to show, the current page has 1 to 9 items, all from the filtered list. |
| AccessoriesCatalog.HandleAddToCart | project-main/src/AccessoriesCatalog.tsx:148-155 | The accessory goes to the cart with quantity 1, so the count grows by exactly 1. |
| ProductCatalog.Lower | project-main/src/ProductCatalog.tsx:138 | Lower-casing keeps the length and maps each character. |
| ProductCatalog.LowerIdempotent | project-main/src/ProductCatalog.tsx:138 | Lower-casing twice equals lower-casing once. |
| ProductCatalog.ContainsIffOccurs | project-main/src/ProductCatalog.tsx:138 | `includes` holds exactly when the term occurs at some position. |
| ProductCatalog.Matches | project-main/src/ProductCatalog.tsx:138-142 | The four tests of the filter callback. Its contract is stated by `FilteredProductsSpec`. |
| ProductCatalog.FilteredProducts | project-main/src/ProductCatalog.tsx:137-143 | `filteredProducts`. Its contract is stated by `FilteredProductsSpec`, `NoFiltersShowEverything` and `SearchIgnoresCase`. |
| ProductCatalog.FilteredProductsSpec | project-main/src/ProductCatalog.tsx:137-143 | A product is kept exactly when two things hold. Its lower-cased name contains the lower-cased term. Each of category, origin and strength is `"all"` or equal to the product's. The result keeps catalogue order. |
| ProductCatalog.NoFiltersShowEverything | project-main/src/ProductCatalog.tsx:137-143 | An empty search with every select on `"all"` shows the whole catalogue. |
| ProductCatalog.SearchIgnoresCase | project-main/src/ProductCatalog.tsx:138 | Lower-casing the search term does not change what is shown. |
| ProductCatalog.Options | project-main/src/ProductCatalog.tsx:107-109 | `['all', ...new Set(values)]`. Its contract is stated by `OptionsSpec` and `CategoryOptionsAreInhabited`. |
| ProductCatalog.OptionsSpec | project-main/src/ProductCatalog.tsx:107-109 | Each select offers `"all"` first, then each value in the catalogue once, in first-occurrence order. |
| ProductCatalog.CategoryOptionsAreInhabited | project-main/src/ProductCatalog.tsx:107 | Every category offered selects at least one product. |
| ProductCatalog.ProductPage.constructor | project-main/src/ProductCatalog.tsx:25-30 | The page starts with no counters, an empty search and every select on `"all"`. |
| ProductCatalog.ProductPage.SetSearchTerm | project-main/src/ProductCatalog.tsx:197 | The search box changes only the term. |
| ProductCatalog.ProductPage.SetCategory | project-main/src/ProductCatalog.tsx:205 | The category select changes only the category. |
| ProductCatalog.ProductPage.SetOrigin | project-main/src/ProductCatalog.tsx:216 | The origin select changes only the origin. |
| ProductCatalog.ProductPage.SetStrength | project-main/src/ProductCatalog.tsx:227 | The strength select changes only the strength. |
| ProductCatalog.ProductPage.HandleQuantityChange | project-main/src/ProductCatalog.tsx:111-116 | The counter becomes `max(0, old + change)`, an absent counter counting as 0. Counters never go negative, and the other counters are unchanged. |
| ProductCatalog.QuantityToAdd | project-main/src/ProductCatalog.tsx:119 | The counter's value, or 1 when the counter is 0. Its contract is stated by `ProductPage.HandleAddToCart`. |
| ProductCatalog.ProductLine | project-main/src/ProductCatalog.tsx:120-130 | The cart line built from the product. Its contract is stated by `ProductPage.HandleAddToCart`. |
| ProductCatalog.ProductPage.HandleAddToCart | project-main/src/ProductCatalog.tsx:118-135 | The cart gets the product with quantity equal to the counter, or 1 when the counter is 0, which is at least 1, carrying its id, price, origin and strength. The counter then returns to 0. |
| Wishlist.RemoveFromList | project-main/src/WishlistPage.tsx:54 | The updater of `removeFromWishlist`. Its contract is stated by `RemoveFromListSpec`. |
| Wishlist.RemoveFromListSpec | project-main/src/WishlistPage.tsx:53-55 | Removal drops every entry with the id and keeps the others in order, with their multiplicities. An absent id changes nothing. |
| Wishlist.WishlistPage.FromItems | project-main/src/WishlistPage.tsx:21-36 | The page after mount holds the given list, and the `"wishlist"` record stores it. |
| Wishlist.WishlistPage.SaveEffect | project-main/src/WishlistPage.tsx:33-36 | The save effect writes the list under `"wishlist"`. |
| Wishlist.WishlistPage.RemoveFromWishlist | project-main/src/WishlistPage.tsx:53-55 | No entry with the id remains and every other entry does. The record follows. |
| Wishlist.WishlistPage.HandleAddToCart | project-main/src/WishlistPage.tsx:38-51 | The entry goes to the cart with quantity 1 and its six fields. The wishlist and its record are untouched. |
| Wishlist.Mount | project-main/src/WishlistPage.tsx:25-31 | A stored list is adopted. No record gives `[]`. A corrupt record makes mount fail. |
| LegacyApp.CountUpdate | project-main/src/App.tsx:555 | Replacing one line changes `cartCount` by the difference of quantities. |
| LegacyApp.CountAppend | project-main/src/App.tsx:555 | Appending a line adds its quantity to `cartCount`. |
| LegacyApp.AddLine | project-main/src/App.tsx:495-519 | The updater of the legacy `addToCart`. Its contract is stated by `AddCountsOne` and `AddAlwaysChangesList`. |
| LegacyApp.AddCountsOne | project-main/src/App.tsx:494-521 | With distinct ids, an add raises the count by exactly 1, whatever quantity the caller asked for. A new id appends one line with quantity 1, copying `rating`/`origin` only when present. Ids stay distinct. |
| LegacyApp.AddAlwaysChangesList | project-main/src/App.tsx:494-517 | Every add changes the list. |
| LegacyApp.UpdateLines | project-main/src/App.tsx:533-540 | The `map`/`filter(Boolean)` of `updateCartItemQuantity`. Its contract is stated by `UpdateKeepsOtherLines`, `UpdateAbsentId` and `UpdateOnLine`. |
| LegacyApp.UpdateKeepsOtherLines | project-main/src/App.tsx:531-545 | Lines with other ids are kept, in order, whatever their quantity. A line with the id stays only with a positive quantity. |
| LegacyApp.UpdateAbsentId | project-main/src/App.tsx:531-540 | An absent id changes nothing, even non-positive lines. |
| LegacyApp.UpdateOnLine | project-main/src/App.tsx:531-545 | With distinct ids, the line gets `q + change` when that is positive and is removed otherwise. Nothing else moves. |
| LegacyApp.RemoveLines | project-main/src/App.tsx:525 | The filter of `removeFromCart`. Its contract is stated by `RemoveLinesSpec`. |
| LegacyApp.RemoveLinesSpec | project-main/src/App.tsx:523-529 | `removeFromCart` drops every line with the id and keeps the rest in order. An absent id changes nothing. |
| LegacyApp.App.FromItems | project-main/src/App.tsx:480-481 | The component starts with the given cart, an empty wishlist and storage as it was. |
| LegacyApp.App.AddToCart | project-main/src/App.tsx:494-521 | As written: the list is updated, but the record receives the list from before the update, so it never matches the cart afterwards. |
| LegacyApp.App.AddToCartPersisted | project-main/src/App.tsx:494-521 | Corrected add: the record holds the new list. With distinct ids, the count grows by 1 and ids stay distinct. |
| LegacyApp.App.RemoveFromCart | project-main/src/App.tsx:523-529 | No line with the id remains, and exactly the new list is stored. |
| LegacyApp.App.UpdateCartItemQuantity | project-main/src/App.tsx:531-545 | The list is updated as above and exactly the new list is stored. |
| LegacyApp.App.AddToWishlist | project-main/src/App.tsx:547-549 | Appends without checking the id, so an entry already present is then there twice. |
| LegacyApp.App.RemoveFromWishlist | project-main/src/App.tsx:551-553 | No wishlist entry with the id remains. The cart is untouched. |
| LegacyApp.App.RemoveAllFromCart | project-main/src/App.tsx:557-560 | The cart is empty, the count is 0 and `[]` is stored. |
| LegacyApp.StaleWriteOnEmptyCart | project-main/src/App.tsx:520 | One add to a stored empty cart leaves `[]` in the record while the cart holds one line. |
| LegacyApp.Mount | project-main/src/App.tsx:486-492 | A stored list is adopted and nothing is written back. No record gives the empty cart. A corrupt record makes mount fail. |

## Left out

- Rendering is not modelled: JSX, routing, framer-motion animations, the toasts and "added" badges, and their `setTimeout` timers.
- `Intl.NumberFormat` is not modelled. `formatPrice` is modelled as the request it makes: the converted amount, the currency, the locale and the fraction digits.
- The network call and `response.json()` are not modelled. The service receives their outcome as an optional rate map.
- `JSON.stringify`/`JSON.parse` are not modelled. A record either holds a value of the reader's type or is not JSON, on which `JSON.parse` throws. Well-formed JSON of another shape is outside the model: `JSON.parse` accepts it, and, for instance, `loadCart` would return a record `{}` because `NaN > expiry` is false.
- `Date.now()` becomes the `now` parameter. `console.error` is not modelled.
- Floating-point rounding is not modelled. Prices, rates, GST and conversions are exact reals.
- React's effect scheduling is not modelled. Each mount is stated by its settled result after the load and save effects have run. Each operation runs its state update and then the save effect, in sequence.
- Mount failure is modelled as `null`: a record that does not parse makes the provider's or page's load effect throw. The error boundary that would then show is not modelled.
- CartStorage.CartStorageService.ClearCart: a throwing `removeItem` (cartStorageService.ts:52-55) is not modelled; removal always succeeds. `getItem` failures inside `loadCart` are not modelled either.
- `CartStorageService.getInstance` is not modelled. It is a plain singleton like the exchange-rate one, which `ServiceSlot` models.
- No component in the rendered tree uses the cart storage service or the exchange-rate service. They are modelled as stand-alone objects.
- `MAX_ITEM_QUANTITY` is declared but never enforced, so no cap is modelled. Where the storefront's documentation speaks of quantity caps, the model follows the code, which has none.
- `totalPrice`, `isLoading` and `error` of the declared context type are not provided by the provider, and are not modelled.
- CartPage: the page reads the list as `items` (CartPage.tsx:11), which the provider's value does not carry, so every render of `/cart` throws (see Findings). The summary, the buttons and their members model the page as evidently intended, reading `cartItems`. `CartIcon.tsx:11` reads `totalItems` in the same way and is not part of this model.
- CartPage.OrderSummary: states the amounts handed to `Intl.NumberFormat`, not the text shown. The formatter rounds each figure to whole units on its own, so the three shown figures need not add up.
- CartContext.CartProvider.AddToCart: keeps quantities positive only for non-negative requests. A negative `item.quantity` would pass through, but every caller passes 1 or a counter of at least 1.
- AccessoriesCatalog.SortOrder: `localeCompare` is modelled by a collation key `collate`, a numeric rank of each name. The `name` order is stated relative to that rank, not to Unicode collation.
- ProductCatalog.Lower: `toLowerCase` is modelled on the ASCII letters only; other characters are left as they are.
- The legacy `App` operations are defined but not wired to any element. They are modelled because they write the same `"cart"` record as the provider.
- The six-product catalogue data of ProductCatalog.tsx is not reproduced; the page is modelled over any product list.
- The wishlist has no add operation on its page. Entries reach it only through the stored record, which the model takes as given.
- Not part of this model: `ErrorBoundary.tsx`, `Footer.tsx`, `CartIcon.tsx`, `CurrencySelector.tsx`, `SmokingAccessories.tsx` and `ProductDetail.tsx` (a find-by-id plus rendering).

## Findings

| source | as written | input that shows it | evidently intended | confidence | as-written member | corrected member |
|---|---|---|---|---|---|---|
| project-main/src/App.tsx:520 | `addToCart` writes `cartItems`, the list from before the update, to `"cart"` | an add to an empty, stored cart: the cart holds one line while the record still holds `[]` | store the updated list, as `removeFromCart`, `updateCartItemQuantity` and `removeAllFromCart` do | high; not executed | LegacyApp.App.AddToCart (with LegacyApp.StaleWriteOnEmptyCart) | LegacyApp.App.AddToCartPersisted |
| project-main/src/CartPage.tsx:11 | the page destructures `items: cartItems` from `useCart()`, whose value carries `cartItems` and not `items` | any render of `/cart`: `cartItems` is `undefined` and `cartItems.length` throws at line 66 | destructure `cartItems` (and `cartCount`), the names the provider supplies | high; not executed | CartPage.CartPageAsWrittenThrows (with CartPage.RenderCart) | CartPage.CartPageShowsSummary |
