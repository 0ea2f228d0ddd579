/** The cart's record types and constants (types/cart.ts). */
module CartTypes {
  import opened Wrappers

  /**
    One cart line. Only `rating` and `origin` are optional in the declared
    type. `strength` is not declared, but the objects the product catalogue
    hands to `addToCart` carry it, and object spreads keep it, so the model
    carries it as a further optional property.
  */
  datatype CartItem = CartItem(
    id: int,
    name: string,
    price: real,
    quantity: int,
    category: string,
    description: string,
    image: string,
    rating: Option<real>,
    origin: Option<string>,
    strength: Option<string>)

  /** The persisted cart record: items, two stored totals and the time (in
      milliseconds since the epoch) it was last written. */
  datatype CartState = CartState(
    items: seq<CartItem>,
    totalItems: int,
    totalPrice: real,
    lastUpdated: int)

  const CartStorageKey: string := "stogies_cart"

  /** Seven days, in milliseconds. */
  const CartExpirationDuration: int := 7 * 24 * 60 * 60 * 1000

  /** Declared for a per-line cap, which no operation enforces. */
  const MaxItemQuantity: int := 10

  lemma CartConstants()
    ensures CartExpirationDuration == 604_800_000
    ensures MaxItemQuantity == 10
    ensures CartStorageKey == "stogies_cart"
  {
  }
}
