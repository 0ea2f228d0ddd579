/**
  The exchange-rate provider (services/exchangeRateService.ts): a held
  table of rates relative to INR, adopted from a cache record when that is
  younger than 24 hours, refreshed from the network, and falling back to
  the held table and then to a built-in default table when the network
  fails.

  The network round trip is the input `response`: `None` for every failure
  (a thrown `fetch`, a body that is not JSON, a non-ok status, a body
  without `rates`), or the `rates` object of an ok response, in which a
  currency may be missing. The clock is `now`; a failing cache write is
  `cacheWriteFails`.
*/
module ExchangeRates {
  import opened Wrappers
  import opened Currencies
  import opened LocalStorage

  datatype ExchangeRates = ExchangeRates(rates: map<Currency, real>, timestamp: int)

  const ExchangeRatesCacheKey: string := "exchange_rates"

  /** 24 hours, in milliseconds. */
  const CacheDuration: int := 24 * 60 * 60 * 1000

  /** A table with a rate for every currency. */
  ghost predicate Total(rates: map<Currency, real>) {
    forall c: Currency :: c in rates
  }

  function DefaultRate(c: Currency): real {
    match c
    case INR => 1.0
    case USD => 0.012
    case GBP => 0.0095
    case EUR => 0.011
    case JPY => 1.8
    case AUD => 0.018
    case CAD => 0.016
    case CHF => 0.011
    case CNY => 0.087
    case SGD => 0.016
  }

  /** `getDefaultRates`: a rate for all ten currencies, INR at 1. */
  function DefaultRates(): (r: map<Currency, real>)
    ensures Total(r) && r[INR] == 1.0
    ensures forall c :: c in r ==> r[c] > 0.0
  {
    map c: Currency :: DefaultRate(c)
  }

  /** The table built from an ok response: INR is 1 whatever the response
      says; each other currency takes the response's rate, and is absent
      (`undefined`) when the response lacks it. */
  function FromResponse(response: map<Currency, real>): (r: map<Currency, real>)
    ensures INR in r && r[INR] == 1.0
    ensures forall c :: c != INR ==> (c in r <==> c in response)
    ensures forall c :: c != INR && c in response ==> r[c] == response[c]
  {
    map c | c == INR || c in response :: if c == INR then 1.0 else response[c]
  }

  /** `this.rates?.rates || this.getDefaultRates()`. */
  function HeldOrDefault(held: Option<ExchangeRates>): map<Currency, real> {
    match held
    case Some(e) => e.rates
    case None => DefaultRates()
  }

  /** The held table after `loadCachedRates` at time `now`. */
  function CachedIfFresh(store: map<string, Stored<ExchangeRates>>, now: int): Option<ExchangeRates> {
    match Fetch(store, ExchangeRatesCacheKey)
    case Parsed(e) => if now - e.timestamp < CacheDuration then Some(e) else None
    case _ => None
  }

  class ExchangeRateService {
    var rates: Option<ExchangeRates>
    var storage: map<string, Stored<ExchangeRates>>

    /** The private constructor, which runs `loadCachedRates`. A corrupt
        cache is logged and leaves the held table empty. */
    constructor (store: map<string, Stored<ExchangeRates>>, now: int)
      ensures storage == store
      ensures rates == CachedIfFresh(store, now)
    {
      storage := store;
      rates := None;
      var cached := Fetch(store, ExchangeRatesCacheKey);
      if cached.Parsed? && now - cached.value.timestamp < CacheDuration {
        rates := Some(cached.value);
      }
    }

    /** `saveCachedRates`: the write comes first, so a failing write leaves
        the held table as it was. */
    method SaveCachedRates(table: map<Currency, real>, now: int, cacheWriteFails: bool)
      modifies this
      ensures cacheWriteFails ==> rates == old(rates) && storage == old(storage)
      ensures !cacheWriteFails ==>
                && rates == Some(ExchangeRates(table, now))
                && storage == old(storage)[ExchangeRatesCacheKey := Json(ExchangeRates(table, now))]
    {
      if !cacheWriteFails {
        var data := ExchangeRates(table, now);
        storage := Write(storage, ExchangeRatesCacheKey, data);
        rates := Some(data);
      }
    }

    /** `fetchExchangeRates`: never throws. */
    method FetchExchangeRates(response: Option<map<Currency, real>>, now: int, cacheWriteFails: bool)
      returns (r: map<Currency, real>)
      modifies this
      ensures response.Some? ==> r == FromResponse(response.value)
      ensures response.Some? && !cacheWriteFails ==>
                && rates == Some(ExchangeRates(r, now))
                && storage == old(storage)[ExchangeRatesCacheKey := Json(ExchangeRates(r, now))]
      ensures response.Some? && cacheWriteFails ==> rates == old(rates) && storage == old(storage)
      ensures response.None? ==> r == HeldOrDefault(old(rates)) && rates == old(rates) && storage == old(storage)
    {
      if response.Some? {
        r := FromResponse(response.value);
        SaveCachedRates(r, now, cacheWriteFails);
      } else {
        r := HeldOrDefault(rates);
      }
    }

    function GetRates(): (r: map<Currency, real>)
      reads this
      ensures rates.Some? ==> r == rates.value.rates
      ensures rates.None? ==> r == DefaultRates()
    {
      HeldOrDefault(rates)
    }
  }

  /** The module-level slot behind the static `getInstance`. */
  class ServiceSlot {
    var instance: ExchangeRateService?

    constructor ()
      ensures instance == null
    {
      instance := null;
    }

    /** The first call constructs the service; every later call returns that
        same object, whatever the storage and clock are then. */
    method GetInstance(store: map<string, Stored<ExchangeRates>>, now: int) returns (s: ExchangeRateService)
      modifies this
      ensures old(instance) != null ==> s == old(instance)
      ensures old(instance) == null ==> fresh(s) && s.rates == CachedIfFresh(store, now) && s.storage == store
      ensures instance == s
    {
      if instance == null {
        instance := new ExchangeRateService(store, now);
      }
      s := instance;
    }
  }

  /** The cache is adopted only while strictly younger than 24 hours. */
  lemma CacheFreshness(store: map<string, Stored<ExchangeRates>>, e: ExchangeRates, now: int)
    requires ExchangeRatesCacheKey in store && store[ExchangeRatesCacheKey] == Json(e)
    ensures now - e.timestamp < 86_400_000 ==> CachedIfFresh(store, now) == Some(e)
    ensures now - e.timestamp >= 86_400_000 ==> CachedIfFresh(store, now) == None
  {
  }

  /** A cache record that does not parse leaves the held table empty. */
  lemma CorruptCacheIgnored(store: map<string, Stored<ExchangeRates>>, now: int)
    requires Fetch(store, ExchangeRatesCacheKey).Corrupt?
    ensures CachedIfFresh(store, now) == None
  {
  }

  /** The fallback chain: the held table when there is one, else the defaults;
      the defaults are total. */
  lemma {:induction false} FallbackOrder(held: Option<ExchangeRates>)
    ensures held.Some? ==> HeldOrDefault(held) == held.value.rates
    ensures held.None? ==> Total(HeldOrDefault(held)) && HeldOrDefault(held)[INR] == 1.0
  {
  }

  /** A fetched table is total exactly when the response covers the nine
      currencies other than INR. */
  lemma {:induction false} FetchedTableTotal(response: map<Currency, real>)
    ensures Total(FromResponse(response)) <==> forall c :: c != INR ==> c in response
  {
    if Total(FromResponse(response)) {
      forall c | c != INR ensures c in response {
        assert c in FromResponse(response);
      }
    }
  }

  /** Tables that are total stay total: if the held table is total, the
      service answers with a total table after any fetch whose response (if
      ok) covers every currency. */
  predicate HeldTotal(held: Option<ExchangeRates>) {
    held.Some? ==> forall c: Currency :: c in held.value.rates
  }

  lemma {:induction false} RatesAlwaysTotal(held: Option<ExchangeRates>)
    requires HeldTotal(held)
    ensures Total(HeldOrDefault(held))
  {
  }
}
