/**
  The currency provider the rendered tree uses (contexts/CurrencyContext.tsx):
  its own three-currency type and a fixed rate table, the selected currency
  as state, and conversion from INR prices.
*/
module CurrencyContext {

  /** The provider's local `Currency` type (not the ten-code catalogue). */
  datatype DisplayCurrency = INR | USD | GBP

  /** The `exchangeRates` table, relative to INR. */
  const ExchangeRates: map<DisplayCurrency, real> := map[INR := 1.0, USD := 0.012, GBP := 0.0095]

  /** The table has a positive rate for every member of the local type, so a
      lookup never yields `undefined`. */
  lemma {:induction false} RateTableTotal()
    ensures forall c: DisplayCurrency :: c in ExchangeRates && ExchangeRates[c] > 0.0
    ensures ExchangeRates[INR] == 1.0
  {
    forall c: DisplayCurrency ensures c in ExchangeRates && ExchangeRates[c] > 0.0 {
      match c
      case INR =>
      case USD =>
      case GBP =>
    }
  }

  function Rate(c: DisplayCurrency): (r: real)
    ensures r > 0.0
  {
    RateTableTotal();
    ExchangeRates[c]
  }

  /** `convertPrice` with `c` selected. */
  function Convert(price: real, c: DisplayCurrency): real {
    price * Rate(c)
  }

  /** What `formatPrice` hands to `Intl.NumberFormat('en-IN', …)`: the
      converted amount, the currency, and whole units. The formatter itself
      is not part of this model. */
  datatype FormatRequest = FormatRequest(locale: string, currency: DisplayCurrency, amount: real,
                                         minimumFractionDigits: nat, maximumFractionDigits: nat)

  function Format(price: real, c: DisplayCurrency): (r: FormatRequest)
    ensures r.amount == Convert(price, c) && r.currency == c
  {
    FormatRequest("en-IN", c, Convert(price, c), 0, 0)
  }

  /** With INR selected, conversion is the identity. */
  lemma {:induction false} ConvertInrIsIdentity(price: real)
    ensures Convert(price, INR) == price
  {
    RateTableTotal();
  }

  /** Conversion keeps prices non-negative and keeps their order. */
  lemma {:induction false} ConvertMonotone(p: real, q: real, c: DisplayCurrency)
    ensures 0.0 <= p ==> 0.0 <= Convert(p, c)
    ensures p <= q ==> Convert(p, c) <= Convert(q, c)
    ensures p < q ==> Convert(p, c) < Convert(q, c)
  {
    var k := Rate(c);
    assert Convert(q, c) - Convert(p, c) == (q - p) * k;
  }

  /** Conversion distributes over sums, so converting a total equals summing
      the converted parts. */
  lemma {:induction false} ConvertAdditive(p: real, q: real, c: DisplayCurrency)
    ensures Convert(p + q, c) == Convert(p, c) + Convert(q, c)
  {
  }

  class CurrencyProvider {
    var currency: DisplayCurrency

    /** The initial state is INR. */
    constructor ()
      ensures currency == INR
    {
      currency := INR;
    }

    /** `setCurrency` replaces the selection and nothing else. */
    method SetCurrency(c: DisplayCurrency)
      modifies this
      ensures currency == c
    {
      currency := c;
    }

    /** `convertPrice`: the price times the selected currency's rate. */
    function ConvertPrice(price: real): (r: real)
      reads this
      ensures currency == INR ==> r == price
      ensures 0.0 <= price ==> 0.0 <= r
    {
      ConvertInrIsIdentity(price);
      ConvertMonotone(price, price, currency);
      Convert(price, currency)
    }

    /** `formatPrice` formats the converted price: conversion comes first. */
    function FormatPrice(price: real): (r: FormatRequest)
      reads this
      ensures r.amount == ConvertPrice(price) && r.currency == currency
    {
      Format(price, currency)
    }
  }
}
