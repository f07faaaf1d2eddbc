/** The country info panel: its eight display fields, `setPanelEmpty` and
    `setPanelForCountry` (script.js:83-133). */
module InfoPanel {
  import opened Wrappers
  import opened Countries
  import opened Rates

  /** What the panel shows: the country name and meta line, the rate value
      and its subtitle, the two update timestamps, and the flag image source
      and alternative text. */
  datatype PanelView = PanelView(
    countryName: string,
    countryMeta: string,
    rateValue: string,
    rateSub: string,
    lastUpdate: string,
    nextUpdate: string,
    flagSrc: string,
    flagAlt: string)

  const Dash: string := "—"
  /** The default message of `setPanelEmpty`. */
  const SelectCountry: string := "Seleccioná un país"
  const NotAvailable: string := "País no disponible"
  const NoRateData: string := "No hay datos de cotización."
  const RateUnavailable: string := "No disponible"
  const CurrencyMissing: string := "La moneda no aparece en la fuente actual."

  /** The panel after `setPanelEmpty(msg)`: the message as the name, a dash
      in every other text field and no flag. */
  function EmptyView(msg: string): PanelView {
    PanelView(msg, Dash, Dash, Dash, Dash, Dash, "", "")
  }

  /** The subtitle of a quoted rate: what one US dollar buys. */
  function QuoteLine(fmt: NumberFormat, rate: real, currency: string): string {
    "1 USD = " + FormatMoney(fmt, rate) + " " + currency
  }

  /** A subtitle that quotes a rate. */
  predicate IsQuoteLine(s: string) {
    |s| >= 8 && s[..8] == "1 USD = "
  }

  /** The panel that selecting `featureName` leaves behind, given the panel
      `prev` before it, the cached payload and the number formatter. An
      unknown name empties the panel; a known one shows the country, and
      then the rate when the payload succeeded. Without a successful payload
      the update timestamps keep whatever `prev` showed. */
  function CountryView(prev: PanelView, featureName: string, payload: Option<Payload>, fmt: NumberFormat): PanelView {
    match Lookup(featureName)
    case None => EmptyView(NotAvailable)
    case Some(info) =>
      var title := DisplayName(featureName);
      var shown := prev.(countryName := title, countryMeta := Meta(info.currency),
                         flagSrc := FlagUrl(info.iso2), flagAlt := "Bandera de " + title);
      if !Succeeded(payload) then
        shown.(rateValue := Dash, rateSub := NoRateData)
      else
        var stamped := shown.(lastUpdate := payload.value.timeLastUpdateUtc.GetOr(Dash),
                              nextUpdate := payload.value.timeNextUpdateUtc.GetOr(Dash));
        match GetRateFor(payload, info.currency)
        case None => stamped.(rateValue := RateUnavailable, rateSub := CurrencyMissing)
        case Some(rate) =>
          stamped.(rateValue := FormatMoney(fmt, rate) + " " + info.currency,
                   rateSub := QuoteLine(fmt, rate, info.currency))
  }

  /** The panel's DOM text fields, updated in place. */
  class Panel {
    var countryName: string
    var countryMeta: string
    var rateValue: string
    var rateSub: string
    var lastUpdate: string
    var nextUpdate: string
    var flagSrc: string
    var flagAlt: string

    /** The eight fields as one value. */
    function View(): PanelView
      reads this
    {
      PanelView(countryName, countryMeta, rateValue, rateSub, lastUpdate, nextUpdate, flagSrc, flagAlt)
    }

    /** A panel showing what the page's markup starts with. */
    constructor (initial: PanelView)
      ensures View() == initial
    {
      countryName, countryMeta := initial.countryName, initial.countryMeta;
      rateValue, rateSub := initial.rateValue, initial.rateSub;
      lastUpdate, nextUpdate := initial.lastUpdate, initial.nextUpdate;
      flagSrc, flagAlt := initial.flagSrc, initial.flagAlt;
    }

    /** `setPanelEmpty(msg)`. */
    method SetEmpty(msg: string)
      modifies this
      ensures View() == EmptyView(msg)
    {
      countryName := msg;
      countryMeta := Dash;
      rateValue := Dash;
      rateSub := Dash;
      lastUpdate := Dash;
      nextUpdate := Dash;
      flagSrc := "";
      flagAlt := "";
    }

    /** `setPanelForCountry(featureName)` against the cached payload. The
        early return for a payload that did not succeed leaves both update
        timestamps as they were. */
    method SetForCountry(featureName: string, payload: Option<Payload>, fmt: NumberFormat)
      modifies this
      ensures View() == CountryView(old(View()), featureName, payload, fmt)
      ensures Lookup(featureName).Some? && !Succeeded(payload) ==>
        lastUpdate == old(lastUpdate) && nextUpdate == old(nextUpdate)
    {
      var info := Lookup(featureName);
      if info.None? {
        SetEmpty(NotAvailable);
        return;
      }

      var rate := GetRateFor(payload, info.value.currency);

      countryName := DisplayName(featureName);
      countryMeta := Meta(info.value.currency);
      flagSrc := FlagUrl(info.value.iso2);
      flagAlt := "Bandera de " + countryName;

      if payload.None? || payload.value.result != Some("success") {
        rateValue := Dash;
        rateSub := NoRateData;
        return;
      }

      if rate.None? {
        rateValue := RateUnavailable;
        rateSub := CurrencyMissing;
      } else {
        rateValue := FormatMoney(fmt, rate.value) + " " + info.value.currency;
        rateSub := "1 USD = " + FormatMoney(fmt, rate.value) + " " + info.value.currency;
      }

      lastUpdate := payload.value.timeLastUpdateUtc.GetOr(Dash);
      nextUpdate := payload.value.timeNextUpdateUtc.GetOr(Dash);
    }
  }

  /** An unknown name gives the "not available" panel, whatever the panel
      showed before, whatever the payload holds. */
  lemma UnknownNamePanel(prev: PanelView, featureName: string, payload: Option<Payload>, fmt: NumberFormat)
    requires Lookup(featureName).None?
    ensures CountryView(prev, featureName, payload, fmt) == EmptyView(NotAvailable)
    ensures CountryView(prev, featureName, payload, fmt).countryName == NotAvailable
  {
  }

  /** A known name always shows the country: its label, its currency line
      and its flag, whatever the payload holds. */
  lemma KnownNamePanel(prev: PanelView, featureName: string, payload: Option<Payload>, fmt: NumberFormat)
    requires Lookup(featureName).Some?
    ensures var v := CountryView(prev, featureName, payload, fmt);
      var info := Lookup(featureName).value;
      && v.countryName == DisplayName(featureName)
      && v.countryMeta == "Moneda: " + info.currency + " · Base: USD"
      && v.flagSrc == "https://flagcdn.com/w40/" + ToLower(info.iso2) + ".png"
      && v.flagAlt == "Bandera de " + DisplayName(featureName)
  {
  }

  /** Without a successful payload a known country shows a dash and the
      "no data" note, and both timestamps keep their previous text. */
  lemma NoDataPanel(prev: PanelView, featureName: string, payload: Option<Payload>, fmt: NumberFormat)
    requires Lookup(featureName).Some? && !Succeeded(payload)
    ensures var v := CountryView(prev, featureName, payload, fmt);
      && v.rateValue == Dash && v.rateSub == NoRateData
      && v.lastUpdate == prev.lastUpdate && v.nextUpdate == prev.nextUpdate
  {
  }

  /** With a successful payload the timestamps are copied from it, a dash
      standing in for a missing one, and the rate is quoted when there is
      one and reported missing otherwise. */
  lemma SucceededPanel(prev: PanelView, featureName: string, payload: Option<Payload>, fmt: NumberFormat)
    requires Lookup(featureName).Some? && Succeeded(payload)
    ensures var v := CountryView(prev, featureName, payload, fmt);
      var cur := Lookup(featureName).value.currency;
      && v.lastUpdate == (if payload.value.timeLastUpdateUtc.Some? then payload.value.timeLastUpdateUtc.value else Dash)
      && v.nextUpdate == (if payload.value.timeNextUpdateUtc.Some? then payload.value.timeNextUpdateUtc.value else Dash)
      && (GetRateFor(payload, cur).None? ==> v.rateValue == RateUnavailable && v.rateSub == CurrencyMissing)
      && (GetRateFor(payload, cur).Some? ==>
            var text := fmt(GetRateFor(payload, cur).value, 2, MaxFractionDigits(GetRateFor(payload, cur).value));
            v.rateValue == text + " " + cur && v.rateSub == "1 USD = " + text + " " + cur)
  {
  }

  /** A rate is quoted exactly when the name is known, the payload
      succeeded and the currency has a rate. */
  lemma {:induction false} QuoteOnlyWhenRated(prev: PanelView, featureName: string, payload: Option<Payload>, fmt: NumberFormat)
    ensures IsQuoteLine(CountryView(prev, featureName, payload, fmt).rateSub) <==>
      Lookup(featureName).Some? && Succeeded(payload) && GetRateFor(payload, Lookup(featureName).value.currency).Some?
  {
    var sub := CountryView(prev, featureName, payload, fmt).rateSub;
    if Lookup(featureName).None? {
      UnknownNamePanel(prev, featureName, payload, fmt);
      assert sub == Dash;
    } else if !Succeeded(payload) {
      NoDataPanel(prev, featureName, payload, fmt);
      assert sub[0] == 'N';
    } else {
      SucceededPanel(prev, featureName, payload, fmt);
      var rate := GetRateFor(payload, Lookup(featureName).value.currency);
      if rate.None? {
        assert sub[0] == 'L';
      } else {
        var rest := fmt(rate.value, 2, MaxFractionDigits(rate.value)) + " " + Lookup(featureName).value.currency;
        assert sub == "1 USD = " + rest;
        assert sub[..8] == "1 USD = ";
      }
    }
  }

  /** The rate fields depend on three things only: whether the name is
      known, whether the payload succeeded, and the rate of the currency. */
  lemma RateFieldsDependOnThreeInputs(prev1: PanelView, prev2: PanelView, featureName: string,
                                      p1: Option<Payload>, p2: Option<Payload>, fmt: NumberFormat)
    requires Lookup(featureName).Some? ==> Succeeded(p1) == Succeeded(p2)
    requires Lookup(featureName).Some? ==>
      GetRateFor(p1, Lookup(featureName).value.currency) == GetRateFor(p2, Lookup(featureName).value.currency)
    ensures CountryView(prev1, featureName, p1, fmt).rateValue == CountryView(prev2, featureName, p2, fmt).rateValue
    ensures CountryView(prev1, featureName, p1, fmt).rateSub == CountryView(prev2, featureName, p2, fmt).rateSub
  {
  }

  /** Selecting the same country twice in a row shows the same panel. */
  lemma SelectIdempotent(prev: PanelView, featureName: string, payload: Option<Payload>, fmt: NumberFormat)
    ensures var once := CountryView(prev, featureName, payload, fmt);
      CountryView(once, featureName, payload, fmt) == once
  {
  }

  /** No country of the table is labelled with the "not available"
      message. */
  lemma TableLabelsAvailable(i: nat)
    requires i < |SouthAmerica|
    ensures DisplayName(SouthAmerica[i].name) != NotAvailable
  {
  }

  /** Every country of the table, once selected, shows its own label, never
      the "not available" message. */
  lemma TableCountryShown(i: nat, prev: PanelView, payload: Option<Payload>, fmt: NumberFormat)
    requires i < |SouthAmerica|
    ensures CountryView(prev, SouthAmerica[i].name, payload, fmt).countryName == DisplayName(SouthAmerica[i].name)
    ensures CountryView(prev, SouthAmerica[i].name, payload, fmt).countryName != NotAvailable
  {
    LookupRow(i);
    KnownNamePanel(prev, SouthAmerica[i].name, payload, fmt);
    TableLabelsAvailable(i);
  }

  /** Ecuador pays in US dollars: once the payload succeeded with any rates
      at all, its rate is exactly 1. */
  lemma EcuadorQuotesOne(prev: PanelView, payload: Option<Payload>, fmt: NumberFormat)
    requires Succeeded(payload) && payload.value.rates.Some?
    ensures CountryView(prev, "Ecuador", payload, fmt).rateSub == "1 USD = " + fmt(1.0, 2, 4) + " USD"
  {
    LookupRow(5);
  }

  /** Chile with a successful payload quoting 950.23 pesos shows the rate
      with two fraction digits and the payload's last update. */
  lemma ChileScenario(prev: PanelView, fmt: NumberFormat)
    ensures var p := Some(Payload(Some("success"), Some(map["CLP" := 950.23]), Some("2025-01-01T00:00Z"), None));
      var v := CountryView(prev, "Chile", p, fmt);
      && v.rateSub == "1 USD = " + fmt(950.23, 2, 2) + " CLP"
      && v.lastUpdate == "2025-01-01T00:00Z"
      && v.nextUpdate == Dash
  {
    LookupRow(3);
  }

  /** Peru without any payload: the country is shown, the rate is not. */
  lemma PeruWithoutPayload(prev: PanelView, fmt: NumberFormat)
    ensures var v := CountryView(prev, "Peru", None, fmt);
      && v.countryName == "Perú" && v.rateValue == Dash && v.rateSub == NoRateData
  {
    LookupRow(8);
  }

  /** A name outside the table, such as Germany, empties the panel to the
      "not available" message whatever the payload holds. */
  lemma GermanyNotAvailable(prev: PanelView, payload: Option<Payload>, fmt: NumberFormat)
    ensures CountryView(prev, "Germany", payload, fmt) == EmptyView(NotAvailable)
  {
    WantedNamesAreIndexed("Germany");
    TableWellFormed();
  }

  /** Any name the map keeps is a country of the table, so selecting it
      shows its label, never the "not available" message. */
  lemma WantedNameShown(prev: PanelView, featureName: string, payload: Option<Payload>, fmt: NumberFormat)
    requires featureName in WantedNames()
    ensures CountryView(prev, featureName, payload, fmt).countryName == DisplayName(featureName)
    ensures CountryView(prev, featureName, payload, fmt).countryName != NotAvailable
  {
    WantedNamesAreIndexed(featureName);
    var row := Lookup(featureName).value;
    var j :| 0 <= j < |SouthAmerica| && SouthAmerica[j] == row;
    TableCountryShown(j, prev, payload, fmt);
  }
}
