/**
  The cart provider that the rendered tree uses (contexts/CartContext.tsx):
  an ordered list of cart lines, a derived item count, and a mirror of the
  list in local storage under the key "cart".

  The list updates are pure list transforms (functions below); the provider
  is a class whose methods replace the list and then run the save effect,
  which rewrites the stored list and recounts.
*/
module CartContext {
  import opened Wrappers
  import opened CartTypes
  import opened LocalStorage
  import Lists

  /** The key the provider uses; distinct from the persistence service's key. */
  const CartKey: string := "cart"

  lemma {:induction false} ProviderKeyDiffersFromServiceKey()
    ensures CartKey != CartStorageKey
  {
    assert CartKey[0] != CartStorageKey[0];
  }

  predicate UniqueIds(items: seq<CartItem>) {
    forall i, j :: 0 <= i < j < |items| ==> items[i].id != items[j].id
  }

  predicate AllPositive(items: seq<CartItem>) {
    forall i :: 0 <= i < |items| ==> items[i].quantity > 0
  }

  function Ids(items: seq<CartItem>): (r: seq<int>)
    ensures |r| == |items| && forall i :: 0 <= i < |items| ==> r[i] == items[i].id
  {
    seq(|items|, i requires 0 <= i < |items| => items[i].id)
  }

  /** `items.reduce((total, item) => total + item.quantity, 0)`. */
  function TotalQuantity(items: seq<CartItem>): int {
    if items == [] then 0
    else TotalQuantity(items[..|items| - 1]) + items[|items| - 1].quantity
  }

  function Max0(x: int): int {
    if x < 0 then 0 else x
  }

  /** `items.findIndex(i => i.id === id)`: the first line with that id, or -1. */
  function FindIndex(items: seq<CartItem>, id: int): (r: int)
    ensures -1 <= r < |items|
    ensures r == -1 <==> forall i :: 0 <= i < |items| ==> items[i].id != id
    ensures r != -1 ==> items[r].id == id && forall i :: 0 <= i < r ==> items[i].id != id
  {
    if items == [] then -1
    else if items[0].id == id then 0
    else
      var k := FindIndex(items[1..], id);
      if k == -1 then -1 else k + 1
  }

  /** `quantity || 1`: a zero quantity requests one. */
  function Requested(quantity: int): int {
    if quantity == 0 then 1 else quantity
  }

  /** The updater passed to `setCartItems` by `addToCart`. */
  function AddLine(items: seq<CartItem>, item: CartItem): seq<CartItem> {
    var k := FindIndex(items, item.id);
    if k != -1 then
      items[k := items[k].(quantity := items[k].quantity + Requested(item.quantity))]
    else
      items + [item.(quantity := Requested(item.quantity))]
  }

  /** The `map` step of `updateQuantity`. */
  function ChangeQuantity(items: seq<CartItem>, id: int, change: int): seq<CartItem> {
    seq(|items|, i requires 0 <= i < |items| =>
      if items[i].id == id then items[i].(quantity := Max0(items[i].quantity + change)) else items[i])
  }

  /** The `filter` step of `updateQuantity`. */
  function KeepPositive(items: seq<CartItem>): seq<CartItem> {
    Lists.Filter(items, (x: CartItem) => x.quantity > 0)
  }

  /** The updater passed to `setCartItems` by `updateQuantity`. */
  function UpdateLines(items: seq<CartItem>, id: int, change: int): seq<CartItem> {
    KeepPositive(ChangeQuantity(items, id, change))
  }

  /** The updater passed to `setCartItems` by `removeItem`. */
  function RemoveLines(items: seq<CartItem>, id: int): seq<CartItem> {
    Lists.Filter(items, (x: CartItem) => x.id != id)
  }

  // ---------------------------------------------------------------------
  // addToCart

  /** An id already in the cart: its (first) line grows by the requested
      quantity, and the length and every other line are unchanged. */
  lemma AddToExistingLine(items: seq<CartItem>, item: CartItem, k: nat)
    requires k < |items| && items[k].id == item.id
    requires forall j :: 0 <= j < k ==> items[j].id != item.id
    ensures var r := AddLine(items, item);
      && |r| == |items|
      && r[k] == items[k].(quantity := items[k].quantity + Requested(item.quantity))
      && r[k].quantity == items[k].quantity + (if item.quantity == 0 then 1 else item.quantity)
      && forall j :: 0 <= j < |items| && j != k ==> r[j] == items[j]
  {
  }

  /** A new id: exactly one line is appended, with quantity `item.quantity || 1`,
      and the earlier lines keep their order. */
  lemma AddNewLine(items: seq<CartItem>, item: CartItem)
    requires forall j :: 0 <= j < |items| ==> items[j].id != item.id
    ensures var r := AddLine(items, item);
      && |r| == |items| + 1
      && r[..|items|] == items
      && r[|items|] == item.(quantity := if item.quantity == 0 then 1 else item.quantity)
  {
  }

  lemma {:induction false} AddKeepsIdsUnique(items: seq<CartItem>, item: CartItem)
    requires UniqueIds(items)
    ensures UniqueIds(AddLine(items, item))
    ensures Ids(AddLine(items, item)) == if item.id in Ids(items) then Ids(items) else Ids(items) + [item.id]
  {
    var r := AddLine(items, item);
    var k := FindIndex(items, item.id);
    if k == -1 {
      assert item.id !in Ids(items);
      assert Ids(r) == Ids(items) + [item.id];
    } else {
      assert Ids(items)[k] == item.id;
      assert Ids(r) == Ids(items);
    }
  }

  lemma AddKeepsQuantitiesPositive(items: seq<CartItem>, item: CartItem)
    requires AllPositive(items) && item.quantity >= 0
    ensures AllPositive(AddLine(items, item))
  {
  }

  /** Replacing one line changes the count by the difference of quantities. */
  lemma {:induction false} TotalQuantityUpdate(items: seq<CartItem>, k: nat, line: CartItem)
    requires k < |items|
    ensures TotalQuantity(items[k := line]) == TotalQuantity(items) - items[k].quantity + line.quantity
  {
    var n := |items|;
    assert items[k := line][..n - 1] == if k == n - 1 then items[..n - 1] else items[..n - 1][k := line];
    if k < n - 1 {
      TotalQuantityUpdate(items[..n - 1], k, line);
    }
  }

  lemma {:induction false} TotalQuantityAppend(items: seq<CartItem>, line: CartItem)
    ensures TotalQuantity(items + [line]) == TotalQuantity(items) + line.quantity
  {
    assert (items + [line])[..|items|] == items;
  }

  /** The count grows by exactly the requested quantity. */
  lemma {:induction false} AddGrowsCount(items: seq<CartItem>, item: CartItem)
    ensures TotalQuantity(AddLine(items, item)) == TotalQuantity(items) + Requested(item.quantity)
  {
    var k := FindIndex(items, item.id);
    if k != -1 {
      TotalQuantityUpdate(items, k, items[k].(quantity := items[k].quantity + Requested(item.quantity)));
    } else {
      TotalQuantityAppend(items, item.(quantity := Requested(item.quantity)));
    }
  }

  // ---------------------------------------------------------------------
  // updateQuantity

  lemma {:induction false} SubsequenceIds(a: seq<CartItem>, b: seq<CartItem>)
    requires Lists.IsSubsequence(a, b)
    ensures Lists.IsSubsequence(Ids(a), Ids(b))
    decreases |b|
  {
    if a != [] {
      assert Ids(a)[0] == a[0].id && Ids(b)[0] == b[0].id;
      assert Ids(a)[1..] == Ids(a[1..]) && Ids(b)[1..] == Ids(b[1..]);
      if a[0] == b[0] && Lists.IsSubsequence(a[1..], b[1..]) {
        SubsequenceIds(a[1..], b[1..]);
      } else {
        SubsequenceIds(a, b[1..]);
      }
    }
  }

  /** After `updateQuantity` every quantity is positive, the lines come in
      their old relative order, and a line is kept exactly when its
      (possibly changed) quantity is positive. */
  lemma {:induction false} UpdateQuantityShape(items: seq<CartItem>, id: int, change: int)
    ensures var r := UpdateLines(items, id, change);
      && AllPositive(r)
      && Lists.IsSubsequence(Ids(r), Ids(items))
      && forall x :: x in r <==> x in ChangeQuantity(items, id, change) && x.quantity > 0
  {
    var m := ChangeQuantity(items, id, change);
    var r := UpdateLines(items, id, change);
    Lists.FilterIsSubsequence(m, (x: CartItem) => x.quantity > 0);
    SubsequenceIds(r, m);
    assert Ids(m) == Ids(items);
    forall i | 0 <= i < |r| ensures r[i].quantity > 0 {
      assert r[i] in r;
    }
  }

  /** With distinct ids, the line with that id ends with quantity
      `max(0, q + change)` and is dropped when that is 0; every other line is
      kept unchanged when its quantity is positive. */
  lemma {:induction false} UpdateQuantityOnLine(items: seq<CartItem>, id: int, change: int, k: nat)
    requires UniqueIds(items) && k < |items| && items[k].id == id
    ensures var r := UpdateLines(items, id, change);
      && (items[k].quantity + change > 0 ==> items[k].(quantity := items[k].quantity + change) in r)
      && (items[k].quantity + change <= 0 ==> forall x :: x in r ==> x.id != id)
      && (forall x :: x in r && x.id == id ==> x == items[k].(quantity := items[k].quantity + change))
      && (forall x :: x in items && x.id != id && x.quantity > 0 ==> x in r)
      && (forall x :: x in r && x.id != id ==> x in items)
  {
    var m := ChangeQuantity(items, id, change);
    assert m[k] == items[k].(quantity := Max0(items[k].quantity + change));
    forall x | x in m && x.id == id ensures x == m[k] {
      var j :| 0 <= j < |m| && m[j] == x;
      assert items[j].id == id;
    }
    forall x | x in items && x.id != id ensures x in m {
      var j :| 0 <= j < |items| && items[j] == x;
      assert m[j] == x;
    }
    forall x | x in m && x.id != id ensures x in items {
      var j :| 0 <= j < |m| && m[j] == x;
      assert items[j] == x;
    }
  }

  /** An id with no line leaves a cart of positive lines unchanged. */
  lemma {:induction false} UpdateQuantityAbsentId(items: seq<CartItem>, id: int, change: int)
    requires AllPositive(items)
    requires forall j :: 0 <= j < |items| ==> items[j].id != id
    ensures UpdateLines(items, id, change) == items
  {
    assert ChangeQuantity(items, id, change) == items;
    Lists.FilterKeepsAll(items, (x: CartItem) => x.quantity > 0);
  }

  lemma {:induction false} UpdateKeepsIdsUnique(items: seq<CartItem>, id: int, change: int)
    requires UniqueIds(items)
    ensures UniqueIds(UpdateLines(items, id, change))
  {
    var r := UpdateLines(items, id, change);
    UpdateQuantityShape(items, id, change);
    UniqueIdsOfSubsequence(r, items);
  }

  /** A list whose ids form a subsequence of a list with distinct ids has
      distinct ids too. */
  lemma {:induction false} UniqueIdsOfSubsequence(a: seq<CartItem>, b: seq<CartItem>)
    requires UniqueIds(b) && Lists.IsSubsequence(Ids(a), Ids(b))
    ensures UniqueIds(a)
  {
    Lists.SubsequenceNoDuplicates(Ids(a), Ids(b));
    forall i, j | 0 <= i < j < |a| ensures a[i].id != a[j].id {
      assert Ids(a)[i] == a[i].id && Ids(a)[j] == a[j].id;
    }
  }

  // ---------------------------------------------------------------------
  // removeItem

  /** `removeItem` drops every line with the id and keeps the rest, in order;
      an absent id changes nothing. */
  lemma {:induction false} RemoveLinesSpec(items: seq<CartItem>, id: int)
    ensures var r := RemoveLines(items, id);
      && (forall x :: x in r <==> x in items && x.id != id)
      && Lists.IsSubsequence(r, items)
      && ((forall j :: 0 <= j < |items| ==> items[j].id != id) ==> r == items)
      && (AllPositive(items) ==> AllPositive(r))
  {
    var r := RemoveLines(items, id);
    forall i | 0 <= i < |r| ensures r[i] in items {
      assert r[i] in r;
    }
    Lists.FilterIsSubsequence(items, (x: CartItem) => x.id != id);
    if forall j :: 0 <= j < |items| ==> items[j].id != id {
      Lists.FilterKeepsAll(items, (x: CartItem) => x.id != id);
    }
  }

  lemma {:induction false} RemoveKeepsIdsUnique(items: seq<CartItem>, id: int)
    requires UniqueIds(items)
    ensures UniqueIds(RemoveLines(items, id))
  {
    RemoveLinesSpec(items, id);
    SubsequenceIds(RemoveLines(items, id), items);
    UniqueIdsOfSubsequence(RemoveLines(items, id), items);
  }

  // ---------------------------------------------------------------------
  // The provider

  /** `CartProvider`: the two pieces of React state and the stored mirror. */
  class CartProvider {
    var cartItems: seq<CartItem>
    var cartCount: int
    var storage: map<string, Stored<seq<CartItem>>>

    /** What the save effect re-establishes after every change. */
    ghost predicate Valid()
      reads this
    {
      && cartCount == TotalQuantity(cartItems)
      && Read(storage, CartKey) == Some(cartItems)
    }

    /** The state after mount, once both effects have run: `items` adopted
        and written back, under the given storage. */
    constructor FromItems(items: seq<CartItem>, store: map<string, Stored<seq<CartItem>>>)
      ensures Valid()
      ensures cartItems == items
      ensures storage == store[CartKey := Json(items)]
    {
      cartItems := items;
      cartCount := TotalQuantity(items);
      storage := store[CartKey := Json(items)];
    }

    /** The save effect: runs whenever `cartItems` changes. */
    method SaveEffect()
      modifies this
      ensures Valid()
      ensures cartItems == old(cartItems)
      ensures storage == old(storage)[CartKey := Json(cartItems)]
    {
      storage := Write(storage, CartKey, cartItems);
      cartCount := TotalQuantity(cartItems);
    }

    method AddToCart(item: CartItem)
      requires Valid()
      modifies this
      ensures Valid()
      ensures cartItems == AddLine(old(cartItems), item)
      ensures cartCount == old(cartCount) + Requested(item.quantity)
      ensures storage == old(storage)[CartKey := Json(cartItems)]
      ensures UniqueIds(old(cartItems)) ==> UniqueIds(cartItems)
      ensures AllPositive(old(cartItems)) && item.quantity >= 0 ==> AllPositive(cartItems)
    {
      AddGrowsCount(cartItems, item);
      if UniqueIds(cartItems) {
        AddKeepsIdsUnique(cartItems, item);
      }
      cartItems := AddLine(cartItems, item);
      SaveEffect();
    }

    method UpdateQuantity(itemId: int, change: int)
      requires Valid()
      modifies this
      ensures Valid()
      ensures cartItems == UpdateLines(old(cartItems), itemId, change)
      ensures storage == old(storage)[CartKey := Json(cartItems)]
      ensures AllPositive(cartItems)
      ensures UniqueIds(old(cartItems)) ==> UniqueIds(cartItems)
    {
      UpdateQuantityShape(cartItems, itemId, change);
      if UniqueIds(cartItems) {
        UpdateKeepsIdsUnique(cartItems, itemId, change);
      }
      cartItems := UpdateLines(cartItems, itemId, change);
      SaveEffect();
    }

    method RemoveItem(itemId: int)
      requires Valid()
      modifies this
      ensures Valid()
      ensures cartItems == RemoveLines(old(cartItems), itemId)
      ensures forall x :: x in cartItems ==> x.id != itemId
      ensures storage == old(storage)[CartKey := Json(cartItems)]
      ensures UniqueIds(old(cartItems)) ==> UniqueIds(cartItems)
      ensures AllPositive(old(cartItems)) ==> AllPositive(cartItems)
    {
      RemoveLinesSpec(cartItems, itemId);
      if UniqueIds(cartItems) {
        RemoveKeepsIdsUnique(cartItems, itemId);
      }
      cartItems := RemoveLines(cartItems, itemId);
      SaveEffect();
    }

    method RemoveAll()
      requires Valid()
      modifies this
      ensures Valid()
      ensures cartItems == [] && cartCount == 0
      ensures storage == old(storage)[CartKey := Json([])]
    {
      cartItems := [];
      SaveEffect();
    }
  }

  /** Mounting the provider: the load effect adopts a stored list (and the
      count of its quantities), the save effect writes the list back. A
      record that does not parse makes the load effect throw, and the
      provider does not come up (null). */
  method Mount(store: map<string, Stored<seq<CartItem>>>) returns (p: CartProvider?)
    ensures p == null <==> Fetch(store, CartKey).Corrupt?
    ensures p != null ==> fresh(p) && p.Valid()
    ensures p != null && Fetch(store, CartKey).Parsed? ==>
              p.cartItems == Fetch(store, CartKey).value && p.storage == store
    ensures p != null && Fetch(store, CartKey).Missing? ==>
              p.cartItems == [] && p.cartCount == 0 && p.storage == store[CartKey := Json([])]
  {
    var saved := Fetch(store, CartKey);
    if saved.Parsed? {
      p := new CartProvider.FromItems(saved.value, store);
      assert store[CartKey := Json(saved.value)] == store;
    } else if saved.Missing? {
      p := new CartProvider.FromItems([], store);
    } else {
      p := null;
    }
  }
}
