/** The page: the cached payload, the filtered features, the rendered paths
    and the info panel, wired together by `init` and the click handler
    (script.js:59, 185-192, 198-241). */
module Page {
  import opened Wrappers
  import opened Countries
  import opened Rates
  import opened InfoPanel
  import opened MapView

  const Loading: string := "Cargando…"
  const StartFailed: string := "Error al iniciar la página"

  class App<G(==,!new)> {
    /** `ratesPayload`: the last payload loaded, or nothing. */
    var ratesPayload: Option<Payload>
    /** The South American features the map draws. */
    var features: seq<Feature<G>>
    /** The paths drawn for `features`, one per feature. */
    var paths: Highlight
    const panel: Panel

    ghost predicate Valid()
      reads this, paths
    {
      && paths.Valid()
      && |paths.fills| == |features|
      && forall f :: f in features ==> f.name in WantedNames()
    }

    /** The page as loaded, before `init` has run. */
    constructor (initial: PanelView)
      ensures Valid() && fresh(panel) && fresh(paths)
      ensures ratesPayload == None && features == [] && panel.View() == initial
    {
      ratesPayload := None;
      features := [];
      paths := new Highlight(0);
      panel := new Panel(initial);
    }

    /** `init`, given what the two downloads produced: the rates payload
        (nothing when `loadRates` failed) and the world features (nothing
        when the topology could not be fetched or converted). The payload
        is replaced whole. Without features the page reports the failure;
        with them it keeps the South American ones, draws them with no path
        active and invites a selection. */
    method Init(loaded: Option<Payload>, world: Option<seq<Feature<G>>>)
      requires Valid()
      modifies this, panel
      ensures Valid() && ratesPayload == loaded
      ensures world.None? ==>
        panel.View() == EmptyView(StartFailed) && features == old(features) && paths == old(paths)
      ensures world.Some? ==>
        && features == KeepWanted(world.value, WantedNames())
        && fresh(paths) && paths.active == None
        && (forall j :: 0 <= j < |paths.fills| ==> paths.fills[j] == Base)
        && panel.View() == EmptyView(SelectCountry)
    {
      panel.SetEmpty(Loading);
      ratesPayload := loaded;
      if world.None? {
        panel.SetEmpty(StartFailed);
        return;
      }
      features := KeepWanted(world.value, WantedNames());
      paths := new Highlight(|features|);
      panel.SetEmpty(SelectCountry);
    }

    /** A click on the path of feature `i`: that path becomes the only
        active one and the panel shows the feature's country against the
        cached payload. Every drawn feature is in the table, so the panel
        never reports it as unavailable. */
    method Click(i: nat, fmt: NumberFormat)
      requires Valid() && i < |features|
      modifies paths, panel
      ensures Valid() && paths.active == Some(i)
      ensures paths.fills ==
        (if old(paths.active).Some? then old(paths.fills)[old(paths.active).value := Base] else old(paths.fills))[i := Active]
      ensures ActivePaths(paths.fills) == {i}
      ensures panel.View() == CountryView(old(panel.View()), features[i].name, ratesPayload, fmt)
      ensures panel.View().countryName == DisplayName(features[i].name)
      ensures panel.View().countryName != NotAvailable
    {
      paths.Click(i);
      panel.SetForCountry(features[i].name, ratesPayload, fmt);
      AtMostOneActive(paths.fills, paths.active);
      WantedNameShown(old(panel.View()), features[i].name, ratesPayload, fmt);
    }
  }
}
