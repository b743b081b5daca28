/** The currency table of src/lib/constants/currencies.ts and its lookup. */
module Currencies {
  import opened Wrappers
  import opened Models

  const CURRENCIES: seq<Currency> := [
    Currency("INR", "\U{20B9}", "Indian Rupee", "en-IN"),
    Currency("USD", "$", "US Dollar", "en-US"),
    Currency("EUR", "\U{20AC}", "Euro", "de-DE"),
    Currency("GBP", "\U{00A3}", "British Pound", "en-GB"),
    Currency("JPY", "\U{00A5}", "Japanese Yen", "ja-JP"),
    Currency("CAD", "C$", "Canadian Dollar", "en-CA"),
    Currency("AUD", "A$", "Australian Dollar", "en-AU"),
    Currency("CHF", "CHF", "Swiss Franc", "de-CH"),
    Currency("CNY", "\U{00A5}", "Chinese Yuan", "zh-CN")
  ]

  /** The application's default currency: the first entry of the table. */
  const DEFAULT_CURRENCY: Currency := CURRENCIES[0]

  /** `table.find((c) => c.code === code)`: the first entry with that code,
      or None (`undefined`) when there is none. */
  function FindByCode(table: seq<Currency>, code: string): (r: Option<Currency>)
    ensures r.Some? ==> r.value in table && r.value.code == code
    ensures r.None? <==> forall c :: c in table ==> c.code != code
  {
    if table == [] then None
    else if table[0].code == code then Some(table[0])
    else FindByCode(table[1..], code)
  }

  /** `find` returns the entry at the first index whose code matches. */
  lemma {:induction false} FindByCodeIsFirst(table: seq<Currency>, code: string, i: int)
    requires 0 <= i < |table| && table[i].code == code
    requires forall j :: 0 <= j < i ==> table[j].code != code
    ensures FindByCode(table, code) == Some(table[i])
  {
    if i > 0 {
      FindByCodeIsFirst(table[1..], code, i - 1);
    }
  }

  /** `getCurrencyByCode`: the matching entry, or the default currency. */
  function GetCurrencyByCode(code: string): (r: Currency)
    ensures r in CURRENCIES
    ensures (exists c :: c in CURRENCIES && c.code == code) ==> r.code == code
    ensures (forall c :: c in CURRENCIES ==> c.code != code) ==> r == DEFAULT_CURRENCY
  {
    FindByCode(CURRENCIES, code).GetOr(DEFAULT_CURRENCY)
  }

  /** No two entries of the table share a code. */
  lemma CodesDistinct()
    ensures forall i, j :: 0 <= i < j < |CURRENCIES| ==> CURRENCIES[i].code != CURRENCIES[j].code
  {
  }

  /** Because the codes are distinct, looking up an entry's code gives back
      that very entry. */
  lemma {:induction false} LookupOfListedCode(i: int)
    requires 0 <= i < |CURRENCIES|
    ensures GetCurrencyByCode(CURRENCIES[i].code) == CURRENCIES[i]
  {
    CodesDistinct();
    FindByCodeIsFirst(CURRENCIES, CURRENCIES[i].code, i);
  }

  /** The default currency is the Indian Rupee. */
  lemma DefaultIsRupee()
    ensures DEFAULT_CURRENCY.code == "INR" && DEFAULT_CURRENCY.locale == "en-IN"
    ensures GetCurrencyByCode("INR") == DEFAULT_CURRENCY
  {
  }
}
