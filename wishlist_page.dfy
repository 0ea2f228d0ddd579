/**
  The wishlist page (WishlistPage.tsx): a list of saved products mirrored
  in local storage under the key "wishlist". A product can be removed from
  the list or added to the cart; adding it to the cart leaves it on the
  wishlist.
*/
module Wishlist {
  import opened Wrappers
  import opened CartTypes
  import opened LocalStorage
  import CartContext
  import Lists

  datatype WishlistItem = WishlistItem(
    id: int,
    name: string,
    price: real,
    category: string,
    description: string,
    image: string)

  const WishlistKey: string := "wishlist"

  function HasOtherId(id: int): WishlistItem -> bool {
    (w: WishlistItem) => w.id != id
  }

  /** `prev.filter(item => item.id !== itemId)`. */
  function RemoveFromList(items: seq<WishlistItem>, id: int): seq<WishlistItem> {
    Lists.Filter(items, HasOtherId(id))
  }

  /** Removal drops every entry with the id, keeps every other entry in its
      order, and changes nothing when the id is not on the list. */
  lemma {:induction false} RemoveFromListSpec(items: seq<WishlistItem>, id: int)
    ensures forall w :: w in RemoveFromList(items, id) <==> w in items && w.id != id
    ensures Lists.IsSubsequence(RemoveFromList(items, id), items)
    ensures (forall w :: w in items ==> w.id != id) ==> RemoveFromList(items, id) == items
    ensures forall w: WishlistItem :: w.id != id ==> multiset(RemoveFromList(items, id))[w] == multiset(items)[w]
  {
    Lists.FilterIsSubsequence(items, HasOtherId(id));
    if forall w :: w in items ==> w.id != id {
      Lists.FilterKeepsAll(items, HasOtherId(id));
    }
  }

  /** The line "Add to Cart" hands to the provider: the entry's fields,
      quantity 1, and no rating, origin or strength. */
  function AsCartLine(w: WishlistItem): CartItem {
    CartItem(w.id, w.name, w.price, 1, w.category, w.description, w.image, None, None, None)
  }

  class WishlistPage {
    var wishlistItems: seq<WishlistItem>
    var storage: map<string, Stored<seq<WishlistItem>>>

    /** What the save effect re-establishes after every change. */
    ghost predicate Valid()
      reads this
    {
      Read(storage, WishlistKey) == Some(wishlistItems)
    }

    /** The state after mount, once both effects have run. */
    constructor FromItems(items: seq<WishlistItem>, store: map<string, Stored<seq<WishlistItem>>>)
      ensures Valid()
      ensures wishlistItems == items
      ensures storage == store[WishlistKey := Json(items)]
    {
      wishlistItems := items;
      storage := store[WishlistKey := Json(items)];
    }

    /** The save effect: runs whenever `wishlistItems` changes. */
    method SaveEffect()
      modifies this
      ensures Valid()
      ensures wishlistItems == old(wishlistItems)
      ensures storage == old(storage)[WishlistKey := Json(wishlistItems)]
    {
      storage := Write(storage, WishlistKey, wishlistItems);
    }

    /** The trash button of an entry. */
    method RemoveFromWishlist(itemId: int)
      requires Valid()
      modifies this
      ensures Valid()
      ensures wishlistItems == RemoveFromList(old(wishlistItems), itemId)
      ensures forall w :: w in wishlistItems ==> w.id != itemId
      ensures forall w :: w in old(wishlistItems) && w.id != itemId ==> w in wishlistItems
      ensures storage == old(storage)[WishlistKey := Json(wishlistItems)]
    {
      RemoveFromListSpec(wishlistItems, itemId);
      wishlistItems := RemoveFromList(wishlistItems, itemId);
      SaveEffect();
    }

    /** "Add to Cart": one of the entry goes to the cart; the wishlist and
        its stored mirror are untouched. */
    method HandleAddToCart(cart: CartContext.CartProvider, item: WishlistItem)
      requires Valid() && cart.Valid()
      modifies cart
      ensures Valid() && cart.Valid()
      ensures cart.cartItems == CartContext.AddLine(old(cart.cartItems), AsCartLine(item))
      ensures cart.storage == old(cart.storage)[CartContext.CartKey := LocalStorage.Json(cart.cartItems)]
      ensures cart.cartCount == old(cart.cartCount) + 1
      ensures CartContext.UniqueIds(old(cart.cartItems)) ==> CartContext.UniqueIds(cart.cartItems)
      ensures wishlistItems == old(wishlistItems) && storage == old(storage)
    {
      cart.AddToCart(AsCartLine(item));
    }
  }

  /** Mounting the page: a stored list is adopted (and written back
      unchanged), no record gives the empty list (written as `[]`), and a
      record that does not parse makes the load effect throw, so the page
      does not come up (null). */
  method Mount(store: map<string, Stored<seq<WishlistItem>>>) returns (p: WishlistPage?)
    ensures p == null <==> Fetch(store, WishlistKey).Corrupt?
    ensures p != null ==> fresh(p) && p.Valid()
    ensures p != null && Fetch(store, WishlistKey).Parsed? ==>
              p.wishlistItems == Fetch(store, WishlistKey).value && p.storage == store
    ensures p != null && Fetch(store, WishlistKey).Missing? ==>
              p.wishlistItems == [] && p.storage == store[WishlistKey := Json([])]
  {
    var saved := Fetch(store, WishlistKey);
    if saved.Parsed? {
      p := new WishlistPage.FromItems(saved.value, store);
      assert store[WishlistKey := Json(saved.value)] == store;
    } else if saved.Missing? {
      p := new WishlistPage.FromItems([], store);
    } else {
      p := null;
    }
  }
}
