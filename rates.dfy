/** The cached exchange-rate payload, the rate lookup and the choice of
    fraction digits (script.js:59-81). */
module Rates {
  import opened Wrappers

  /** The parsed body of the rate provider's answer: its `result` status,
      the `rates` object (currency code to units per US dollar) and the two
      update timestamps. Every field may be missing; a rate that is JSON
      `null` is the same, for the page, as a missing key. */
  datatype Payload = Payload(
    result: Option<string>,
    rates: Option<map<string, real>>,
    timeLastUpdateUtc: Option<string>,
    timeNextUpdateUtc: Option<string>)

  /** The base currency of every rate. */
  const Base: string := "USD"

  /** The payload is there and says `result === "success"`. */
  predicate Succeeded(payload: Option<Payload>) {
    payload.Some? && payload.value.result == Some("success")
  }

  /** `getRateFor`: how many units of `currencyCode` one US dollar buys.
      Nothing without a payload or without its rates, even for the dollar;
      exactly 1 for the dollar itself, whatever the rates hold; otherwise the
      rate listed under the code, or nothing when it is not listed. */
  function GetRateFor(payload: Option<Payload>, currencyCode: string): (r: Option<real>)
    ensures (payload.None? || payload.value.rates.None?) ==> r.None?
    ensures payload.Some? && payload.value.rates.Some? && currencyCode == Base ==> r == Some(1.0)
    ensures payload.Some? && payload.value.rates.Some? && currencyCode != Base ==>
      (r.Some? <==> currencyCode in payload.value.rates.value) &&
      (r.Some? ==> r.value == payload.value.rates.value[currencyCode])
  {
    if payload.None? || payload.value.rates.None? then None
    else if currencyCode == Base then Some(1.0)
    else if currencyCode in payload.value.rates.value then Some(payload.value.rates.value[currencyCode])
    else None
  }

  function Abs(x: real): real {
    if x < 0.0 then -x else x
  }

  /** The fewest fraction digits a formatted amount shows. */
  const MinFractionDigits: nat := 2

  /** The most fraction digits a formatted amount shows: the smaller the
      magnitude, the more digits, in three tiers split at 1 and at 100. */
  function MaxFractionDigits(x: real): (d: nat)
    ensures d == 2 <==> Abs(x) >= 100.0
    ensures d == 4 <==> 1.0 <= Abs(x) < 100.0
    ensures d == 6 <==> Abs(x) < 1.0
    ensures MinFractionDigits <= d
  {
    if Abs(x) >= 100.0 then 2 else if Abs(x) >= 1.0 then 4 else 6
  }

  /** A smaller magnitude never shows fewer fraction digits. */
  lemma MaxFractionDigitsAntitone(x: real, y: real)
    requires Abs(x) <= Abs(y)
    ensures MaxFractionDigits(y) <= MaxFractionDigits(x)
  {
  }

  /** The locale number formatter (`Intl.NumberFormat("es-ES", ...)`): a
      value, the minimum and the maximum count of fraction digits to text. */
  type NumberFormat = (real, nat, nat) -> string

  /** `formatMoney`: the value handed to the formatter with the digit range
      of its tier. */
  function FormatMoney(fmt: NumberFormat, x: real): string {
    fmt(x, MinFractionDigits, MaxFractionDigits(x))
  }
}
