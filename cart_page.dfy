/**
  The order summary and buttons of the cart page (CartPage.tsx). The
  figures are computed in INR and converted only when formatted.

  The page destructures the list from the provider's value under the name
  `items` (CartPage.tsx:11), a name the value does not carry; `RenderCart`
  models that read, and the rest of the module models the page as it reads
  when the list arrives under its own name `cartItems`.
*/
module CartPage {
  import opened Wrappers
  import opened CartTypes
  import CartContext
  import LocalStorage
  import CurrencyContext

  /** `calculateSubtotal`: `reduce((total, item) => total + item.price * item.quantity, 0)`. */
  function Subtotal(items: seq<CartItem>): real {
    if items == [] then 0.0
    else Subtotal(items[..|items| - 1]) + items[|items| - 1].price * items[|items| - 1].quantity as real
  }

  /** `calculateTax`: 18% GST. */
  function Tax(items: seq<CartItem>): real {
    Subtotal(items) * 0.18
  }

  /** `calculateTotal`. */
  function Total(items: seq<CartItem>): real {
    Subtotal(items) + Tax(items)
  }

  lemma EmptyCartCostsNothing()
    ensures Subtotal([]) == 0.0 && Tax([]) == 0.0 && Total([]) == 0.0
  {
  }

  /** The total is the subtotal plus 18%. */
  lemma TotalIsSubtotalWithGst(items: seq<CartItem>)
    ensures Total(items) == 1.18 * Subtotal(items)
    ensures Tax(items) == Total(items) - Subtotal(items)
  {
  }

  /** With non-negative prices and quantities, 0 <= subtotal <= total. */
  lemma {:induction false} SubtotalBounds(items: seq<CartItem>)
    requires forall i :: 0 <= i < |items| ==> items[i].price >= 0.0 && items[i].quantity >= 0
    ensures 0.0 <= Subtotal(items) <= Total(items)
  {
    if items != [] {
      var n := |items|;
      SubtotalBounds(items[..n - 1]);
      var last := items[n - 1];
      assert last.price * last.quantity as real >= 0.0 by {
        assert last.price >= 0.0 && last.quantity as real >= 0.0;
      }
    }
  }

  /** Appending a line adds its price times quantity. */
  lemma {:induction false} SubtotalAppend(items: seq<CartItem>, line: CartItem)
    ensures Subtotal(items + [line]) == Subtotal(items) + line.price * line.quantity as real
  {
    assert (items + [line])[..|items|] == items;
  }

  /** The three figures the summary shows, each formatted after conversion. */
  datatype Summary = Summary(subtotal: CurrencyContext.FormatRequest,
                             gst: CurrencyContext.FormatRequest,
                             total: CurrencyContext.FormatRequest)

  /** Each figure is its rupee amount converted into the selected currency;
      the amounts handed to the formatter add up, total = subtotal + GST. */
  function OrderSummary(items: seq<CartItem>, c: CurrencyContext.DisplayCurrency): (r: Summary)
    ensures r.subtotal.currency == c && r.gst.currency == c && r.total.currency == c
    ensures r.subtotal.amount == CurrencyContext.Convert(Subtotal(items), c)
    ensures r.gst.amount == CurrencyContext.Convert(Subtotal(items) * 0.18, c)
    ensures r.total.amount == CurrencyContext.Convert(1.18 * Subtotal(items), c)
    ensures r.total.amount == r.subtotal.amount + r.gst.amount
  {
    TotalIsSubtotalWithGst(items);
    CurrencyContext.ConvertAdditive(Subtotal(items), Tax(items), c);
    Summary(CurrencyContext.Format(Subtotal(items), c),
            CurrencyContext.Format(Tax(items), c),
            CurrencyContext.Format(Total(items), c))
  }

  /** The page's buttons: minus, plus and trash on a line, and "Remove All Items". */
  datatype Action = Decrease(id: int) | Increase(id: int) | Trash(id: int) | RemoveAllItems

  /** The state each button leads to. */
  function AfterAction(items: seq<CartItem>, a: Action): seq<CartItem> {
    match a
    case Decrease(id) => CartContext.UpdateLines(items, id, -1)
    case Increase(id) => CartContext.UpdateLines(items, id, 1)
    case Trash(id) => CartContext.RemoveLines(items, id)
    case RemoveAllItems => []
  }

  /** Each button calls the provider: minus and plus `updateQuantity(id, -1 / +1)`,
      trash `removeItem(id)`, the button `removeAll()`. */
  method Press(cart: CartContext.CartProvider, a: Action)
    requires cart.Valid()
    modifies cart
    ensures cart.Valid()
    ensures cart.cartItems == AfterAction(old(cart.cartItems), a)
    ensures cart.storage == old(cart.storage)[CartContext.CartKey := LocalStorage.Json(cart.cartItems)]
    ensures CartContext.AllPositive(old(cart.cartItems)) ==> CartContext.AllPositive(cart.cartItems)
  {
    match a
    case Decrease(id) => cart.UpdateQuantity(id, -1);
    case Increase(id) => cart.UpdateQuantity(id, 1);
    case Trash(id) => cart.RemoveItem(id);
    case RemoveAllItems => cart.RemoveAll();
  }

  /** Pressing minus on a line of quantity 1 removes the line. */
  lemma {:induction false} MinusOnSingleRemovesLine(items: seq<CartItem>, k: nat)
    requires CartContext.UniqueIds(items) && k < |items| && items[k].quantity == 1
    ensures forall x :: x in AfterAction(items, Decrease(items[k].id)) ==> x.id != items[k].id
  {
    CartContext.UpdateQuantityOnLine(items, items[k].id, -1, k);
  }

  // Rendering

  /** The provider's value (CartContext.tsx:90-97): the list and the count,
      beside the four operations. */
  datatype ContextValue = ContextValue(cartItems: seq<CartItem>, cartCount: int)

  /** The list a destructuring under `name` yields: the list for its own
      name `cartItems`, and `undefined` (None) for any name the value does
      not carry, such as `items`. */
  function ListField(v: ContextValue, name: string): (r: Option<seq<CartItem>>)
    ensures r.Some? <==> name == "cartItems"
    ensures r.Some? ==> r.value == v.cartItems
  {
    if name == "cartItems" then Some(v.cartItems) else None
  }

  /** What a render of the page comes to. */
  datatype Screen =
    | Threw             // `cartItems.length` on `undefined`
    | EmptyCart         // "Your cart is empty"
    | Lines(lines: seq<CartItem>, summary: Summary)

  /** A render of the page that destructures the list under `name`: the
      first use of the list, `cartItems.length === 0` (CartPage.tsx:66),
      throws when it is `undefined`; otherwise an empty list shows the
      notice and a non-empty one its lines and the order summary. */
  function RenderCart(v: ContextValue, name: string, c: CurrencyContext.DisplayCurrency): (r: Screen)
    ensures r.Threw? <==> name != "cartItems"
    ensures r.EmptyCart? <==> name == "cartItems" && v.cartItems == []
    ensures r.Lines? ==> r.lines == v.cartItems && r.summary == OrderSummary(v.cartItems, c)
  {
    match ListField(v, name)
    case None => Threw
    case Some(lines) => if lines == [] then EmptyCart else Lines(lines, OrderSummary(lines, c))
  }

  /** As written, the page reads `items`, so every render of it throws,
      whatever the cart holds. */
  lemma {:induction false} CartPageAsWrittenThrows(v: ContextValue, c: CurrencyContext.DisplayCurrency)
    ensures RenderCart(v, "items", c) == Threw
  {
    assert "items" != "cartItems" by {
      assert "items"[0] != "cartItems"[0];
    }
  }

  /** Reading the list under its own name, a non-empty cart shows its lines
      and the summary whose figures are the converted subtotal, GST and total. */
  lemma {:induction false} CartPageShowsSummary(v: ContextValue, c: CurrencyContext.DisplayCurrency)
    requires v.cartItems != []
    ensures RenderCart(v, "cartItems", c) == Lines(v.cartItems, OrderSummary(v.cartItems, c))
    ensures RenderCart(v, "cartItems", c).summary.total.amount
            == CurrencyContext.Convert(1.18 * Subtotal(v.cartItems), c)
  {
  }
}
