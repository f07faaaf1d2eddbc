/** The map side of the page: the name filter applied to the world
    features (script.js:216-220) and the fills of the country paths driven by
    the mouse handlers and the single `activeCountryPath` reference
    (script.js:138, 171-192). */
module MapView {
  import opened Wrappers

  /** A map feature: its `name` property and its geometry, which the model
      does not look into. */
  datatype Feature<G> = Feature(name: string, geometry: G)

  /** `a` is `b` with some elements left out, the rest in their order. */
  predicate IsSubsequence<T(==)>(a: seq<T>, b: seq<T>)
    decreases |b|
  {
    if a == [] then true
    else if b == [] then false
    else if a[0] == b[0] then IsSubsequence(a[1..], b[1..])
    else IsSubsequence(a, b[1..])
  }

  /** `features.filter((f) => wanted.has(f.properties.name))`: the features
      whose name is wanted, each as many times as it occurs, in their
      original order, and nothing else. */
  function KeepWanted<G(==,!new)>(features: seq<Feature<G>>, wanted: set<string>): (kept: seq<Feature<G>>)
    ensures forall f :: f in kept ==> f.name in wanted
    ensures forall f :: multiset(kept)[f] == if f.name in wanted then multiset(features)[f] else 0
    ensures IsSubsequence(kept, features)
  {
    if features == [] then []
    else
      var rest := KeepWanted(features[1..], wanted);
      assert features == [features[0]] + features[1..];
      if features[0].name in wanted then
        assert ([features[0]] + rest)[1..] == rest;
        [features[0]] + rest
      else
        rest
  }

  /** The fill of a country path: `var(--country)`, `var(--countryHover)`
      and `var(--countryActive)`. */
  datatype Fill = Base | Hover | Active

  /** The fills agree with the active reference: the active path, if there
      is one, is a rendered path, and it is exactly the path with the active
      fill. */
  predicate FillsAgree(fills: seq<Fill>, active: Option<nat>) {
    && (active.Some? ==> active.value < |fills|)
    && forall j :: 0 <= j < |fills| ==> (fills[j] == Active <==> active == Some(j))
  }

  /** The paths shown with the active fill. */
  function ActivePaths(fills: seq<Fill>): set<nat> {
    set j | 0 <= j < |fills| && fills[j] == Active
  }

  /** While the fills agree with the reference, at most one path is active,
      and it is the referenced one. */
  lemma AtMostOneActive(fills: seq<Fill>, active: Option<nat>)
    requires FillsAgree(fills, active)
    ensures ActivePaths(fills) == if active.Some? then {active.value} else {}
    ensures |ActivePaths(fills)| <= 1
  {
  }

  /** The paths of one rendering, indexed like the features they draw, and
      `activeCountryPath` as the index of the clicked path. */
  class Highlight {
    var fills: seq<Fill>
    var active: Option<nat>

    ghost predicate Valid()
      reads this
    {
      FillsAgree(fills, active)
    }

    /** A fresh rendering: every path has the base fill, none is active. */
    constructor (count: nat)
      ensures Valid()
      ensures |fills| == count && active == None
      ensures forall j :: 0 <= j < count ==> fills[j] == Base
    {
      fills := seq(count, _ => Base);
      active := None;
    }

    /** The `mouseenter` handler of path `i`: the hover fill, unless `i` is
        the active path. */
    method MouseEnter(i: nat)
      requires Valid() && i < |fills|
      modifies this
      ensures Valid() && active == old(active)
      ensures fills == if old(active) == Some(i) then old(fills) else old(fills)[i := Hover]
    {
      if active != Some(i) {
        fills := fills[i := Hover];
      }
    }

    /** The `mouseleave` handler of path `i`: back to the base fill, unless
        `i` is the active path. */
    method MouseLeave(i: nat)
      requires Valid() && i < |fills|
      modifies this
      ensures Valid() && active == old(active)
      ensures fills == if old(active) == Some(i) then old(fills) else old(fills)[i := Base]
    {
      if active != Some(i) {
        fills := fills[i := Base];
      }
    }

    /** The `click` handler of path `i`: the previously active path, if any,
        goes back to the base fill, and `i` becomes the active path. */
    method Click(i: nat)
      requires Valid() && i < |fills|
      modifies this
      ensures Valid() && active == Some(i)
      ensures fills == (if old(active).Some? then old(fills)[old(active).value := Base] else old(fills))[i := Active]
      ensures forall j :: 0 <= j < |fills| && j != i && Some(j) != old(active) ==> fills[j] == old(fills)[j]
    {
      if active.Some? {
        fills := fills[active.value := Base];
      }
      active := Some(i);
      fills := fills[i := Active];
    }
  }
}
