/** The currency catalogue (types/currency.ts). */
module Currencies {

  datatype Currency = INR | USD | GBP | EUR | JPY | AUD | CAD | CHF | CNY | SGD

  datatype CurrencyInfo = CurrencyInfo(code: Currency, symbol: string, name: string, locale: string)

  /** The members of the `Currency` union, in declaration order. */
  const AllCurrencies: seq<Currency> := [INR, USD, GBP, EUR, JPY, AUD, CAD, CHF, CNY, SGD]

  const DefaultCurrency: Currency := INR

  /** The `CURRENCIES` table. */
  function Info(c: Currency): CurrencyInfo {
    match c
    case INR => CurrencyInfo(INR, "₹", "Indian Rupee", "en-IN")
    case USD => CurrencyInfo(USD, "$", "US Dollar", "en-US")
    case GBP => CurrencyInfo(GBP, "£", "British Pound", "en-GB")
    case EUR => CurrencyInfo(EUR, "€", "Euro", "en-EU")
    case JPY => CurrencyInfo(JPY, "¥", "Japanese Yen", "ja-JP")
    case AUD => CurrencyInfo(AUD, "A$", "Australian Dollar", "en-AU")
    case CAD => CurrencyInfo(CAD, "C$", "Canadian Dollar", "en-CA")
    case CHF => CurrencyInfo(CHF, "Fr.", "Swiss Franc", "de-CH")
    case CNY => CurrencyInfo(CNY, "¥", "Chinese Yuan", "zh-CN")
    case SGD => CurrencyInfo(SGD, "S$", "Singapore Dollar", "en-SG")
  }

  /** Exactly ten codes, and every code is listed. */
  lemma {:induction false} TenCurrencies()
    ensures |AllCurrencies| == 10
    ensures forall i, j :: 0 <= i < j < |AllCurrencies| ==> AllCurrencies[i] != AllCurrencies[j]
    ensures forall c: Currency :: c in AllCurrencies
  {
    forall c: Currency ensures c in AllCurrencies {
      match c
      case INR => assert AllCurrencies[0] == c;
      case USD => assert AllCurrencies[1] == c;
      case GBP => assert AllCurrencies[2] == c;
      case EUR => assert AllCurrencies[3] == c;
      case JPY => assert AllCurrencies[4] == c;
      case AUD => assert AllCurrencies[5] == c;
      case CAD => assert AllCurrencies[6] == c;
      case CHF => assert AllCurrencies[7] == c;
      case CNY => assert AllCurrencies[8] == c;
      case SGD => assert AllCurrencies[9] == c;
    }
  }

  /** Every entry of the table is filed under its own code. */
  lemma InfoIsKeyedByCode(c: Currency)
    ensures Info(c).code == c
  {
  }

  lemma DefaultIsRupee()
    ensures DefaultCurrency == INR && Info(DefaultCurrency).symbol == "₹"
  {
  }

  /** Symbols do not identify currencies: JPY and CNY share one, so no
      function from symbols back to codes inverts the table. */
  lemma {:induction false} SymbolsDoNotDetermineCode(decode: string -> Currency)
    ensures Info(JPY).symbol == Info(CNY).symbol
    ensures exists c :: decode(Info(c).symbol) != c
  {
    if decode(Info(JPY).symbol) == JPY {
      assert decode(Info(CNY).symbol) != CNY;
    } else {
      assert decode(Info(JPY).symbol) != JPY;
    }
  }
}
