/**
  The browser's per-origin key-value store, as the storefront uses it.

  Every record is written with `JSON.stringify` and read back with
  `JSON.parse`. The model does not spell out the JSON text: a record is
  either the encoding of a value of the component's own type, which
  decodes back to that value, or text that is not JSON (a corrupt or
  hand-edited record), on which `JSON.parse` throws. Well-formed JSON of
  another shape, which `JSON.parse` accepts and the component then uses
  as it is, is outside the model.
*/
module LocalStorage {
  import opened Wrappers

  datatype Stored<T> = Json(value: T) | Unparsable(text: string)

  /** What a component gets from `getItem(key)`, its truthiness test and
      `JSON.parse`: no record (`null`, or the empty string, which is falsy),
      the decoded value, or a record on which `JSON.parse` fails. */
  datatype Fetched<T> = Missing | Parsed(value: T) | Corrupt

  function Fetch<T>(store: map<string, Stored<T>>, key: string): (r: Fetched<T>)
    ensures r.Missing? <==> key !in store || store[key] == Unparsable("")
    ensures r.Parsed? <==> key in store && store[key].Json?
    ensures r.Parsed? ==> store[key] == Json(r.value)
  {
    if key !in store then Missing
    else match store[key]
      case Json(v) => Parsed(v)
      case Unparsable(text) => if text == "" then Missing else Corrupt
  }

  /** The value a record decodes to, if it does. */
  function Read<T>(store: map<string, Stored<T>>, key: string): (r: Option<T>)
    ensures r.Some? <==> key in store && store[key].Json?
    ensures r.Some? ==> store[key] == Json(r.value)
  {
    if key in store && store[key].Json? then Some(store[key].value) else None
  }

  /** `localStorage.setItem(key, JSON.stringify(v))`. */
  function Write<T>(store: map<string, Stored<T>>, key: string, v: T): (r: map<string, Stored<T>>)
    ensures Read(r, key) == Some(v)
    ensures forall k :: k != key ==> (k in r <==> k in store) && (k in store ==> r[k] == store[k])
  {
    store[key := Json(v)]
  }

  /** `localStorage.removeItem(key)`. */
  function Remove<T>(store: map<string, Stored<T>>, key: string): (r: map<string, Stored<T>>)
    ensures key !in r && Read(r, key) == None
    ensures forall k :: k != key ==> (k in r <==> k in store) && (k in store ==> r[k] == store[k])
  {
    store - {key}
  }
}
