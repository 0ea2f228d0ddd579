/**
  The cart persistence service (services/cartStorageService.ts): one
  record under `CartStorageKey`, stamped with the time of the write and
  treated as absent once it is more than seven days old.

  The clock is the explicit `now` parameter (milliseconds); a failing
  `setItem` (a full storage quota) is the explicit `writeFails` parameter.
*/
module CartStorage {
  import opened Wrappers
  import opened CartTypes
  import opened LocalStorage

  const SaveError: string := "Failed to save cart. Please try again."

  /** `isCartExpired`, and the test `loadCart` discards by. */
  predicate IsCartExpired(state: CartState, now: int) {
    now - state.lastUpdated > CartExpirationDuration
  }

  /** What `saveCart` writes: the given state with only `lastUpdated` replaced. */
  function Stamped(state: CartState, now: int): (r: CartState)
    ensures r.items == state.items && r.totalItems == state.totalItems
    ensures r.totalPrice == state.totalPrice && r.lastUpdated == now
  {
    state.(lastUpdated := now)
  }

  /** What `loadCart` returns for a store at time `now`. */
  function Loaded(store: map<string, Stored<CartState>>, now: int): Option<CartState> {
    match Fetch(store, CartStorageKey)
    case Parsed(state) => if IsCartExpired(state, now) then None else Some(state)
    case _ => None
  }

  /** The store after `loadCart`: cleared when the record is corrupt or expired. */
  function StoreAfterLoad(store: map<string, Stored<CartState>>, now: int): map<string, Stored<CartState>> {
    match Fetch(store, CartStorageKey)
    case Missing => store
    case Corrupt => Remove(store, CartStorageKey)
    case Parsed(state) => if IsCartExpired(state, now) then Remove(store, CartStorageKey) else store
  }

  class CartStorageService {
    var storage: map<string, Stored<CartState>>

    constructor (store: map<string, Stored<CartState>>)
      ensures storage == store
    {
      storage := store;
    }

    method SaveCart(state: CartState, now: int, writeFails: bool) returns (r: Outcome<string>)
      modifies this
      ensures writeFails ==> r == Fail(SaveError) && storage == old(storage)
      ensures !writeFails ==> r == Pass && storage == old(storage)[CartStorageKey := Json(Stamped(state, now))]
    {
      if writeFails {
        r := Fail(SaveError);
      } else {
        storage := Write(storage, CartStorageKey, Stamped(state, now));
        r := Pass;
      }
    }

    method LoadCart(now: int) returns (r: Option<CartState>)
      modifies this
      ensures r == Loaded(old(storage), now)
      ensures storage == StoreAfterLoad(old(storage), now)
    {
      var fetched := Fetch(storage, CartStorageKey);
      if fetched.Missing? {
        r := None;
      } else if fetched.Corrupt? {
        ClearCart();
        r := None;
      } else if IsCartExpired(fetched.value, now) {
        ClearCart();
        r := None;
      } else {
        r := Some(fetched.value);
      }
    }

    method ClearCart()
      modifies this
      ensures storage == Remove(old(storage), CartStorageKey)
    {
      storage := Remove(storage, CartStorageKey);
    }
  }

  /** No record (or an empty one): `loadCart` answers null and leaves the store alone. */
  lemma LoadMissing(store: map<string, Stored<CartState>>, now: int)
    requires CartStorageKey !in store
    ensures Loaded(store, now) == None && StoreAfterLoad(store, now) == store
  {
  }

  /** An unparsable record is cleared and null is returned. */
  lemma LoadCorrupt(store: map<string, Stored<CartState>>, now: int, text: string)
    requires CartStorageKey in store && store[CartStorageKey] == Unparsable(text) && text != ""
    ensures Loaded(store, now) == None
    ensures CartStorageKey !in StoreAfterLoad(store, now)
  {
  }

  /** A record more than seven days old is cleared and null is returned; one
      that is exactly seven days old is still returned. */
  lemma LoadExpiry(store: map<string, Stored<CartState>>, state: CartState, now: int)
    requires CartStorageKey in store && store[CartStorageKey] == Json(state)
    ensures now - state.lastUpdated > 604_800_000 ==>
              Loaded(store, now) == None && CartStorageKey !in StoreAfterLoad(store, now)
    ensures now - state.lastUpdated <= 604_800_000 ==>
              Loaded(store, now) == Some(state) && StoreAfterLoad(store, now) == store
  {
  }

  /** Round trip: what `saveCart(state)` wrote at `t` is loaded back at any
      `t'` with `t' - t` at most seven days, with `lastUpdated == t`. */
  lemma SaveThenLoad(store: map<string, Stored<CartState>>, state: CartState, t: int, t': int)
    requires t' - t <= CartExpirationDuration
    ensures var saved := store[CartStorageKey := Json(Stamped(state, t))];
      && Loaded(saved, t') == Some(state.(lastUpdated := t))
      && StoreAfterLoad(saved, t') == saved
  {
  }

  /** After the expiry window the same record is discarded. */
  lemma SaveThenLoadTooLate(store: map<string, Stored<CartState>>, state: CartState, t: int, t': int)
    requires t' - t > CartExpirationDuration
    ensures var saved := store[CartStorageKey := Json(Stamped(state, t))];
      && Loaded(saved, t') == None
      && StoreAfterLoad(saved, t') == store - {CartStorageKey}
  {
  }

  /** `isCartExpired` and `loadCart` agree: a stored state is returned exactly
      when it is not expired. */
  lemma ExpiredIffDiscarded(store: map<string, Stored<CartState>>, state: CartState, now: int)
    requires CartStorageKey in store && store[CartStorageKey] == Json(state)
    ensures Loaded(store, now).None? <==> IsCartExpired(state, now)
  {
  }
}
