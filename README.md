# South America currency map: the country panel, modelled in Dafny

The page draws the countries of South America and shows an info panel for
the one clicked. The panel gives the country's name, its currency, how much
of that currency one US dollar buys, and when the rates were last and will
next be updated. This project models the part of `script.js` that has
behaviour of its own:

- the reference table of thirteen countries and its name index `NAME_TO_INFO`;
- the rate lookup `getRateFor` against the cached `ratesPayload`;
- the fraction-digit tiers of `formatMoney`;
- the panel updates `setPanelEmpty` and `setPanelForCountry`;
- the filter that keeps only the table's countries among the world features;
- the fills moved by the mouse handlers and the single `activeCountryPath`;
- `init` and the click handler, which wire these together.

Files, one module each:

- `wrappers.dfy` (`Wrappers`): `Option`, for the script's `null` and missing keys.
- `countries.dfy` (`Countries`): the table and the index built from it (`BuildIndex`, `Lookup`). Also the Spanish display names and the flag URL.
- `rates.dfy` (`Rates`): the payload record, `GetRateFor`, `MaxFractionDigits` and `FormatMoney`.
- `panel.dfy` (`InfoPanel`): `CountryView`, the panel a selection leaves behind, as a function of the panel before, the name, the payload and the formatter. The class `Panel` holds the eight text fields that the two setters assign one by one.
- `mapview.dfy` (`MapView`): the feature filter `KeepWanted`. The class `Highlight` holds the path fills and the active path.
- `app.dfy` (`Page`): the class `App`, which holds the payload, the features, the paths and the panel, with `Init` and `Click`.

Model choices:

- The locale formatter `Intl.NumberFormat("es-ES", …)` is a parameter `fmt` of type `(real, nat, nat) -> string`. It maps a value and the minimum and maximum fraction digits to text. Only the choice of digits is modelled.
- Rates are `real`. The script only compares their magnitude with 1 and 100.
- A path is identified by its index in the drawn feature list. `this !== activeCountryPath` becomes index inequality.

Three behaviours of the code worth stating:

- The dollar's rate of 1 needs a payload with a `rates` object (script.js:68-69).
- The "not available" panel sets the flag source and text to empty strings (script.js:90-91).
- Nothing renders a dash for non-finite numbers; reals have no such values.

## Model

| member | source | states |
|---|---|---|
| Countries.TableWellFormed | script.js:11-26 | the table has 13 rows with pairwise distinct names and country codes; codes are two capital letters and currencies three |
| Countries.BuildIndexSound | script.js:28 | building the Map puts every row's name in the index, and every key maps to a table row carrying that name |
| Countries.BuildIndexLastWins | script.js:28 | when names repeat, the later row overwrites the earlier one; a row whose name does not recur is what the index returns |
| Countries.Lookup | script.js:95 | `NAME_TO_INFO.get(name)` returns a row whose name is `name`, or nothing |
| Countries.LookupRow | script.js:11-28 | every row of the table is found under its own name, so the index loses no row |
| Countries.WantedNamesAreIndexed | script.js:217 | the name set used by the map filter equals the key set of `NAME_TO_INFO`, and every lookup result is a table row |
| Countries.ToLower | script.js:112 | lower-casing keeps the length and replaces each capital letter by its small letter, position by position |
| Countries.ToLowerInjective | script.js:112 | two capital codes with the same lower-case spelling are the same code |
| Countries.FlagUrlsDistinct | script.js:112 | distinct countries of the table get distinct flag image URLs |
| Countries.DisplayNamesDistinct | script.js:103-107 | after Brazil, Peru and French Guiana are translated, the thirteen labels are still pairwise distinct |
| Rates.GetRateFor | script.js:67-71 | no rate without a payload or without its `rates`, even for USD; otherwise exactly 1 for USD whatever `rates` holds; otherwise `rates[code]`, or no rate when the key is missing |
| Rates.MaxFractionDigits | script.js:75-80 | at most 2 fraction digits when the magnitude is at least 100, 4 between 1 and 100, 6 below 1; never below the minimum of 2 |
| Rates.MaxFractionDigitsAntitone | script.js:76 | a smaller magnitude never gets fewer fraction digits |
| InfoPanel.Panel.constructor | script.js:36-43 | the panel starts with the text its markup gives the eight fields |
| InfoPanel.Panel.SetEmpty | script.js:83-92 | the name shows the message, the other five text fields show a dash, and the flag source and text are empty |
| InfoPanel.Panel.SetForCountry | script.js:94-133 | the eight fields end as `CountryView` of the fields before; for a known name with a failed or missing payload, the early return leaves both timestamps as they were |
| InfoPanel.UnknownNamePanel | script.js:95-98 | a name not in the table gives the "País no disponible" panel, whatever the panel showed and whatever the payload holds |
| InfoPanel.KnownNamePanel | script.js:103-113 | a known name shows its Spanish label, "Moneda: <currency> · Base: USD", the flag URL with the lower-cased code, and "Bandera de <label>" as the flag text |
| InfoPanel.NoDataPanel | script.js:115-119 | with no payload or a result other than "success", the rate shows a dash, the subtitle says there is no rate data, and both timestamps keep their previous text |
| InfoPanel.SucceededPanel | script.js:123-132 | with a successful payload, the timestamps are copied from it or become a dash; a missing rate shows "No disponible" and the missing-currency note; a rate shows its formatted amount and "1 USD = <amount> <currency>" |
| InfoPanel.QuoteOnlyWhenRated | script.js:115-129 | the subtitle quotes a rate if and only if the name is known, the payload succeeded and the currency has a rate |
| InfoPanel.RateFieldsDependOnThreeInputs | script.js:101-129 | the rate value and subtitle depend only on whether the name is known, whether the payload succeeded and the currency's rate |
| InfoPanel.SelectIdempotent | script.js:94-133 | selecting the same country twice in a row leaves the same panel as selecting it once |
| InfoPanel.TableLabelsAvailable | script.js:97-107 | no table country's label is the "País no disponible" message |
| InfoPanel.TableCountryShown | script.js:95-107 | selecting any table country shows its own label |
| InfoPanel.WantedNameShown | script.js:217-219 | every name the map keeps, once selected, shows its own label and never the "not available" message |
| InfoPanel.EcuadorQuotesOne | script.js:69 | Ecuador, which pays in dollars, is quoted at exactly 1, with at most four fraction digits (the formatter gets minimum 2, maximum 4), once a successful payload carries any rates |
| InfoPanel.ChileScenario | script.js:123-131 | Chile at 950.23 pesos is quoted "1 USD = <950.23 with 2 digits> CLP" with the payload's last update and a dash for the missing next update |
| InfoPanel.PeruWithoutPayload | script.js:103-118 | Peru without a payload shows "Perú", a dash as rate and the no-data note |
| InfoPanel.GermanyNotAvailable | script.js:95-98 | Germany, not in the table, gives the "not available" panel whatever the payload |
| MapView.KeepWanted | script.js:217-220 | the filter keeps exactly the features whose name is wanted, each as often as in the input, in their original order, and adds nothing |
| MapView.AtMostOneActive | script.js:185-189 | while the fills agree with the active reference, at most one path has the active fill, and it is the referenced one |
| MapView.Highlight.constructor | script.js:165-171 | a fresh drawing has the base fill on every path and no active path |
| MapView.Highlight.MouseEnter | script.js:175-179 | entering a path gives it the hover fill unless it is the active path; the active path and its fill never change |
| MapView.Highlight.MouseLeave | script.js:180-184 | leaving a path restores the base fill unless it is the active path; the active path and its fill never change |
| MapView.Highlight.Click | script.js:185-189 | the previously active path goes back to the base fill, the clicked path becomes the one active path, and no other fill changes |
| Page.App.constructor | script.js:59 | before `init` there is no payload and no feature |
| Page.App.Init | script.js:198-241 | the payload is replaced whole by what was loaded, or becomes none; without the topology the panel reports the start failure; otherwise only the table's countries are drawn, every path with the base fill and none active, and the panel invites a selection |
| Page.App.Click | script.js:185-192 | the previously active path goes back to the base fill, the clicked path becomes the only active one and no other fill changes; the panel shows that feature's country against the cached payload, never as unavailable |

## Left out

- `fetch`, `loadRates` and the topology download: network I/O. Their outcomes are the inputs of `Page.App.Init`: a payload or none, and a feature list or none.
- `topojson.feature`, `d3.geoMercator`, `fitSize`, `geoPath` and the SVG elements of `renderMap`: foreign libraries and floating-point geometry. A feature's geometry is an opaque type parameter.
- `Intl.NumberFormat` and its "es-ES" separators: a foreign locale library. It is the parameter `fmt`, and only the choice of fraction digits is modelled.
- `tickUTC`, `Date.toUTCString` and `setInterval`: wall-clock time and timers.
- The resize handler: the debounced re-render with `setTimeout`, and the stale `activeCountryPath` that survives it. These are timer scheduling and DOM element identity. Only the first drawing is modelled.
- The "Cargando…" panel during `init` is set by the model, but the awaits between it and the next step are not: there is no interleaving of events.
- Payload values of other JSON types: a non-object payload, a rate that is not a number, a timestamp that is not a string. A rate of JSON `null` is a missing key.
- Countries.ToLower: models ASCII letters only, because every code in the table is two ASCII capitals.
- Countries.Lookup: its own contract states only that the row found carries the name looked up. That the index holds exactly the table's names, and finds each row, is stated by Countries.WantedNamesAreIndexed and Countries.LookupRow. This keeps the table literal out of every proof that uses the lookup.
