/**
  The cart and wishlist kept by the `App` component itself (App.tsx), a
  second cart beside the provider of contexts/CartContext.tsx. It differs
  from the provider: an add always adds exactly one, the quantity update
  only drops the line it changes, each operation writes local storage
  itself (there is no save effect), and the wishlist lives in memory only.
*/
module LegacyApp {
  import opened Wrappers
  import opened LocalStorage
  import Lists
  import Wishlist

  /** App's own cart line: no image and no strength. */
  datatype Line = Line(
    id: int,
    name: string,
    price: real,
    quantity: int,
    category: string,
    description: string,
    rating: Option<real>,
    origin: Option<string>)

  /** What `addToCart` accepts: a product (which has a rating and an
      origin), an accessory or a wishlist entry (which have neither). */
  datatype Addable = Addable(
    id: int,
    name: string,
    price: real,
    category: string,
    description: string,
    image: string,
    rating: Option<real>,
    origin: Option<string>)

  const CartKey: string := "cart"

  function Ids(items: seq<Line>): (r: seq<int>)
    ensures |r| == |items| && forall i :: 0 <= i < |items| ==> r[i] == items[i].id
  {
    seq(|items|, i requires 0 <= i < |items| => items[i].id)
  }

  predicate UniqueIds(items: seq<Line>) {
    forall i, j :: 0 <= i < j < |items| ==> items[i].id != items[j].id
  }

  /** `cartItems.reduce((sum, item) => sum + item.quantity, 0)`. */
  function Count(items: seq<Line>): int {
    if items == [] then 0 else Count(items[..|items| - 1]) + items[|items| - 1].quantity
  }

  // addToCart

  /** The `map` of the existing-item branch: every line with the id grows by one. */
  function Bump(items: seq<Line>, id: int): seq<Line> {
    seq(|items|, i requires 0 <= i < |items| =>
      if items[i].id == id then items[i].(quantity := items[i].quantity + 1) else items[i])
  }

  /** The new line: quantity 1, and `rating`/`origin` only when the item has them. */
  function NewLine(item: Addable): Line {
    Line(item.id, item.name, item.price, 1, item.category, item.description, item.rating, item.origin)
  }

  /** The updater passed to `setCartItems` by `addToCart`. */
  function AddLine(items: seq<Line>, item: Addable): seq<Line> {
    if item.id in Ids(items) then Bump(items, item.id) else items + [NewLine(item)]
  }

  lemma {:induction false} CountUpdate(items: seq<Line>, k: nat, line: Line)
    requires k < |items|
    ensures Count(items[k := line]) == Count(items) - items[k].quantity + line.quantity
  {
    var n := |items|;
    assert items[k := line][..n - 1] == if k == n - 1 then items[..n - 1] else items[..n - 1][k := line];
    if k < n - 1 {
      CountUpdate(items[..n - 1], k, line);
    }
  }

  lemma {:induction false} CountAppend(items: seq<Line>, line: Line)
    ensures Count(items + [line]) == Count(items) + line.quantity
  {
    assert (items + [line])[..|items|] == items;
  }

  /** With distinct ids an add is exactly one more of the item, whatever
      quantity the caller had in mind: the existing line grows by one, or a
      line with quantity 1 is appended; the ids stay distinct. */
  lemma {:induction false} AddCountsOne(items: seq<Line>, item: Addable)
    requires UniqueIds(items)
    ensures Count(AddLine(items, item)) == Count(items) + 1
    ensures UniqueIds(AddLine(items, item))
    ensures item.id in Ids(items) ==> |AddLine(items, item)| == |items|
    ensures item.id !in Ids(items) ==> AddLine(items, item) == items + [NewLine(item)]
  {
    if item.id in Ids(items) {
      var k :| 0 <= k < |items| && Ids(items)[k] == item.id;
      var bumped := items[k := items[k].(quantity := items[k].quantity + 1)];
      assert Bump(items, item.id) == bumped;
      CountUpdate(items, k, bumped[k]);
    } else {
      CountAppend(items, NewLine(item));
      assert forall j :: 0 <= j < |items| ==> items[j].id != item.id by {
        forall j | 0 <= j < |items| ensures items[j].id != item.id {
          assert Ids(items)[j] == items[j].id;
        }
      }
    }
  }

  /** Every add changes the list: a line grows or a line is appended. */
  lemma {:induction false} AddAlwaysChangesList(items: seq<Line>, item: Addable)
    ensures AddLine(items, item) != items
  {
    if item.id in Ids(items) {
      var k :| 0 <= k < |items| && Ids(items)[k] == item.id;
      assert AddLine(items, item)[k].quantity == items[k].quantity + 1;
    } else {
      assert |AddLine(items, item)| == |items| + 1;
    }
  }

  // updateCartItemQuantity

  /** One line through the `map` and `filter(Boolean)` of
      `updateCartItemQuantity`: a line with the id becomes
      `max(0, q + change)`, or `null` (dropped) when that is 0; other lines
      pass unchanged. */
  function Step(line: Line, id: int, change: int): seq<Line> {
    var q := if line.quantity + change < 0 then 0 else line.quantity + change;
    if line.id != id then [line]
    else if q == 0 then []
    else [line.(quantity := q)]
  }

  /** The updater passed to `setCartItems` by `updateCartItemQuantity`. */
  function UpdateLines(items: seq<Line>, id: int, change: int): seq<Line> {
    if items == [] then [] else Step(items[0], id, change) + UpdateLines(items[1..], id, change)
  }

  function HasOtherId(id: int): Line -> bool {
    (x: Line) => x.id != id
  }

  /** Lines with other ids are kept, in order, whatever their quantity; a
      line with the id stays only with a positive quantity. */
  lemma {:induction false} UpdateKeepsOtherLines(items: seq<Line>, id: int, change: int)
    ensures Lists.Filter(UpdateLines(items, id, change), HasOtherId(id)) == Lists.Filter(items, HasOtherId(id))
    ensures forall x :: x in UpdateLines(items, id, change) && x.id == id ==> x.quantity > 0
  {
    if items != [] {
      UpdateKeepsOtherLines(items[1..], id, change);
      var rest := UpdateLines(items[1..], id, change);
      var r := UpdateLines(items, id, change);
      if items[0].id != id || r == rest {
        assert r == rest || (r[0] == items[0] && r[1..] == rest);
      } else {
        assert r[1..] == rest && r[0].id == id;
      }
    }
  }

  /** An id with no line changes nothing. */
  lemma {:induction false} UpdateAbsentId(items: seq<Line>, id: int, change: int)
    requires id !in Ids(items)
    ensures UpdateLines(items, id, change) == items
  {
    if items != [] {
      assert Ids(items)[0] == items[0].id;
      assert Ids(items[1..]) == Ids(items)[1..];
      UpdateAbsentId(items[1..], id, change);
    }
  }

  /** The update works line by line, so it distributes over concatenation. */
  lemma {:induction false} UpdateDistributes(a: seq<Line>, b: seq<Line>, id: int, change: int)
    ensures UpdateLines(a + b, id, change) == UpdateLines(a, id, change) + UpdateLines(b, id, change)
  {
    if a == [] {
      assert a + b == b;
    } else {
      assert (a + b)[0] == a[0] && (a + b)[1..] == a[1..] + b;
      UpdateDistributes(a[1..], b, id, change);
    }
  }

  /** The lines around the one with the id pass unchanged. */
  lemma {:induction false} UpdateAround(before: seq<Line>, line: Line, after: seq<Line>, id: int, change: int)
    requires id !in Ids(before) && id !in Ids(after)
    ensures UpdateLines(before + [line] + after, id, change) == before + Step(line, id, change) + after
  {
    var step := Step(line, id, change);
    UpdateSingle(line, id, change);
    UpdateAbsentId(before, id, change);
    UpdateAbsentId(after, id, change);
    UpdateDistributes(before, [line], id, change);
    assert UpdateLines(before + [line], id, change) == before + step;
    UpdateDistributes(before + [line], after, id, change);
  }

  lemma UpdateSingle(line: Line, id: int, change: int)
    ensures UpdateLines([line], id, change) == Step(line, id, change)
  {
    assert [line][1..] == [];
  }

  /** With distinct ids, the one line with the id gets `max(0, q + change)`
      and is removed when that is 0; nothing else moves. */
  lemma {:induction false} UpdateOnLine(items: seq<Line>, id: int, change: int, k: nat)
    requires UniqueIds(items) && k < |items| && items[k].id == id
    ensures items[k].quantity + change <= 0 ==> UpdateLines(items, id, change) == items[..k] + items[k + 1..]
    ensures items[k].quantity + change > 0 ==>
              UpdateLines(items, id, change) == items[k := items[k].(quantity := items[k].quantity + change)]
  {
    var before, line, after := items[..k], items[k], items[k + 1..];
    assert id !in Ids(before) by {
      forall j | 0 <= j < |before| ensures Ids(before)[j] != id {
        assert before[j] == items[j];
      }
    }
    assert id !in Ids(after) by {
      forall j | 0 <= j < |after| ensures Ids(after)[j] != id {
        assert after[j] == items[k + 1 + j];
      }
    }
    UpdateAround(before, line, after, id, change);
    assert items == before + [line] + after;
    if line.quantity + change > 0 {
      assert before + [line.(quantity := line.quantity + change)] + after
          == items[k := line.(quantity := line.quantity + change)];
    } else {
      assert before + [] + after == before + after;
    }
  }

  // removeFromCart

  /** `prevItems.filter(item => item.id !== itemId)`. */
  function RemoveLines(items: seq<Line>, id: int): seq<Line> {
    Lists.Filter(items, HasOtherId(id))
  }

  lemma {:induction false} RemoveLinesSpec(items: seq<Line>, id: int)
    ensures forall x :: x in RemoveLines(items, id) <==> x in items && x.id != id
    ensures Lists.IsSubsequence(RemoveLines(items, id), items)
    ensures id !in Ids(items) ==> RemoveLines(items, id) == items
  {
    Lists.FilterIsSubsequence(items, HasOtherId(id));
    if id !in Ids(items) {
      forall x | x in items ensures x.id != id {
        var j :| 0 <= j < |items| && items[j] == x;
        assert Ids(items)[j] == x.id;
      }
      Lists.FilterKeepsAll(items, HasOtherId(id));
    }
  }

  // The component

  class App {
    var cartItems: seq<Line>
    var wishlistItems: seq<Wishlist.WishlistItem>
    var storage: map<string, Stored<seq<Line>>>

    /** The count shown on the cart icon. */
    function CartCount(): int
      reads this
    {
      Count(cartItems)
    }

    /** The stored record holds the list on screen. */
    ghost predicate Persisted()
      reads this
    {
      Read(storage, CartKey) == Some(cartItems)
    }

    constructor FromItems(items: seq<Line>, store: map<string, Stored<seq<Line>>>)
      ensures cartItems == items && wishlistItems == [] && storage == store
    {
      cartItems := items;
      wishlistItems := [];
      storage := store;
    }

    /** `addToCart` as written: the list is updated, but the write that
        follows stores `cartItems` as it was before the update, so the
        record never holds the list the add produced. */
    method AddToCart(item: Addable)
      modifies this
      ensures cartItems == AddLine(old(cartItems), item)
      ensures storage == old(storage)[CartKey := Json(old(cartItems))]
      ensures !Persisted()
      ensures wishlistItems == old(wishlistItems)
    {
      var before := cartItems;
      AddAlwaysChangesList(before, item);
      cartItems := AddLine(cartItems, item);
      storage := Write(storage, CartKey, before);
    }

    /** `addToCart` storing the list it produced, as the other cart
        operations do. */
    method AddToCartPersisted(item: Addable)
      modifies this
      ensures cartItems == AddLine(old(cartItems), item)
      ensures storage == old(storage)[CartKey := Json(cartItems)]
      ensures Persisted()
      ensures UniqueIds(old(cartItems)) ==> UniqueIds(cartItems) && CartCount() == old(CartCount()) + 1
      ensures wishlistItems == old(wishlistItems)
    {
      if UniqueIds(cartItems) {
        AddCountsOne(cartItems, item);
      }
      cartItems := AddLine(cartItems, item);
      storage := Write(storage, CartKey, cartItems);
    }

    method RemoveFromCart(itemId: int)
      modifies this
      ensures cartItems == RemoveLines(old(cartItems), itemId)
      ensures forall x :: x in cartItems ==> x.id != itemId
      ensures storage == old(storage)[CartKey := Json(cartItems)]
      ensures Persisted()
      ensures wishlistItems == old(wishlistItems)
    {
      RemoveLinesSpec(cartItems, itemId);
      cartItems := RemoveLines(cartItems, itemId);
      storage := Write(storage, CartKey, cartItems);
    }

    method UpdateCartItemQuantity(itemId: int, change: int)
      modifies this
      ensures cartItems == UpdateLines(old(cartItems), itemId, change)
      ensures forall x :: x in cartItems && x.id == itemId ==> x.quantity > 0
      ensures storage == old(storage)[CartKey := Json(cartItems)]
      ensures Persisted()
      ensures wishlistItems == old(wishlistItems)
    {
      UpdateKeepsOtherLines(cartItems, itemId, change);
      cartItems := UpdateLines(cartItems, itemId, change);
      storage := Write(storage, CartKey, cartItems);
    }

    /** `addToWishlist` appends without looking for the id. */
    method AddToWishlist(item: Wishlist.WishlistItem)
      modifies this
      ensures wishlistItems == old(wishlistItems) + [item]
      ensures item in old(wishlistItems) ==> multiset(wishlistItems)[item] >= 2
      ensures cartItems == old(cartItems) && storage == old(storage)
    {
      wishlistItems := wishlistItems + [item];
    }

    method RemoveFromWishlist(itemId: int)
      modifies this
      ensures wishlistItems == Wishlist.RemoveFromList(old(wishlistItems), itemId)
      ensures forall w :: w in wishlistItems ==> w.id != itemId
      ensures cartItems == old(cartItems) && storage == old(storage)
    {
      Wishlist.RemoveFromListSpec(wishlistItems, itemId);
      wishlistItems := Wishlist.RemoveFromList(wishlistItems, itemId);
    }

    method RemoveAllFromCart()
      modifies this
      ensures cartItems == [] && CartCount() == 0
      ensures storage == old(storage)[CartKey := Json([])]
      ensures Persisted()
      ensures wishlistItems == old(wishlistItems)
    {
      cartItems := [];
      storage := Write(storage, CartKey, []);
    }
  }

  /** The counterexample for the stale write: one add to an empty, stored
      cart leaves `[]` in the record while the cart holds one line. */
  lemma StaleWriteOnEmptyCart(item: Addable, store: map<string, Stored<seq<Line>>>)
    requires Read(store, CartKey) == Some([])
    ensures var stored := store[CartKey := Json([])];
            && AddLine([], item) == [NewLine(item)]
            && Read(stored, CartKey) == Some([])
            && Read(stored, CartKey) != Some(AddLine([], item))
  {
  }

  /** Mounting: the load effect adopts a stored list; nothing is written
      back. A record that does not parse makes the load effect throw, and
      the component does not come up (null). */
  method Mount(store: map<string, Stored<seq<Line>>>) returns (app: App?)
    ensures app == null <==> Fetch(store, CartKey).Corrupt?
    ensures app != null ==> fresh(app) && app.storage == store && app.wishlistItems == []
    ensures app != null && Fetch(store, CartKey).Parsed? ==>
              app.cartItems == Fetch(store, CartKey).value && app.Persisted()
    ensures app != null && Fetch(store, CartKey).Missing? ==> app.cartItems == []
  {
    var saved := Fetch(store, CartKey);
    if saved.Parsed? {
      app := new App.FromItems(saved.value, store);
    } else if saved.Missing? {
      app := new App.FromItems([], store);
    } else {
      app := null;
    }
  }
}
