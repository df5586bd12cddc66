/** The application logic of `src/EnhancedApp.jsx`: the camera target computed from a region's
    lobe and hemisphere, the selection and camera state the main component keeps, and the search
    panel's filter pipeline and highlight test. Rendering is not part of the model. */
module EnhancedApp {
  import opened Wrappers
  import opened JsText
  import opened JsArray
  import BR = BrainRegions
  import DK = DesikanKilliany

  // Camera targets

  datatype Vec3 = Vec3(x: real, y: real, z: real)

  /** What `getRegionPosition` returns. */
  datatype CameraTarget = CameraTarget(position: Vec3, distance: real, targetPoint: Vec3)

  /** The fields a listed region offers to the panel and to the camera: both atlases' records
      have them (an AAL record has no `fullName`). */
  datatype Listed = Listed(id: int, name: string, fullName: Option<string>, lobe: string, hemisphere: string)

  function DkListed(r: DK.DkRegion): Listed {
    Listed(r.id, r.name, Some(r.fullName), r.lobe, r.hemisphere)
  }

  function AalListed(r: BR.AalRegion): Listed {
    Listed(r.id, r.name, None, r.lobe, r.hemisphere)
  }

  /** The x offset: left of the midline for `left`, right of it for `right`, in any case. */
  function HemisphereOffset(hemisphere: string): real {
    var h := Lower(hemisphere);
    if h == "left" then -1.5 else if h == "right" then 1.5 else 0.0
  }

  /** The y offset, z offset and distance for a lobe, in any case; `5` away on the midplane for a
      lobe the switch does not list. */
  function LobeOffsets(lobe: string): (yzd: (real, real, real)) {
    match Lower(lobe)
    case "frontal" => (0.5, 2.0, 5.0)
    case "parietal" => (1.0, 0.0, 5.0)
    case "temporal" => (-0.5, 0.5, 6.0)
    case "occipital" => (0.5, -2.5, 5.0)
    case "limbic" => (0.0, 0.0, 4.0)
    case "insular" => (0.0, 0.0, 4.5)
    case _ => (0.0, 0.0, 5.0)
  }

  /** `getRegionPosition`: the offsets of the region's hemisphere and lobe, and the point the
      camera looks at, which scales them by 0.3, 0.5 and 0.3. */
  function GetRegionPosition(region: Listed): (t: CameraTarget)
    ensures t.targetPoint == Vec3(0.3 * t.position.x, 0.5 * t.position.y, 0.3 * t.position.z)
    ensures 4.0 <= t.distance <= 6.0 && -1.5 <= t.position.x <= 1.5
  {
    var x := HemisphereOffset(region.hemisphere);
    var (y, z, d) := LobeOffsets(region.lobe);
    CameraTarget(Vec3(x, y, z), d, Vec3(x * 0.3, y * 0.5, z * 0.3))
  }

  /** The lobes the switch lists, lower-cased. */
  const KnownLobes: seq<string> := ["frontal", "parietal", "temporal", "occipital", "limbic", "insular"]

  /** Only the lobe and hemisphere matter, and only once lower-cased. */
  lemma PositionIgnoresCase(a: Listed, b: Listed)
    requires Lower(a.lobe) == Lower(b.lobe) && Lower(a.hemisphere) == Lower(b.hemisphere)
    ensures GetRegionPosition(a) == GetRegionPosition(b)
  {
  }

  /** The two hemispheres of one lobe are mirror images across the midline; any other hemisphere
      lies on it. */
  lemma HemispheresMirror(region: Listed)
    ensures var l, r := GetRegionPosition(region.(hemisphere := "Left")), GetRegionPosition(region.(hemisphere := "RIGHT"));
      && l.position == r.position.(x := -r.position.x) && l.distance == r.distance
      && l.position.x == -1.5
    ensures Lower(region.hemisphere) != "left" && Lower(region.hemisphere) != "right" ==>
      GetRegionPosition(region).position.x == 0.0
  {
    assert Lower("Left") == "left" && Lower("RIGHT") == "right";
  }

  /** A lobe the switch does not list gets the midplane at distance 5 ... */
  lemma UnknownLobeIsCentred(region: Listed)
    requires Lower(region.lobe) !in KnownLobes
    ensures var t := GetRegionPosition(region);
      t.position.y == 0.0 && t.position.z == 0.0 && t.distance == 5.0
  {
  }

  /** ... and the six known lobes get six different placements, none of them the unknown lobe's. */
  lemma KnownLobesAreDistinguished(a: Listed, b: Listed)
    requires Lower(a.lobe) in KnownLobes && Lower(a.lobe) != Lower(b.lobe)
    requires a.hemisphere == b.hemisphere
    ensures GetRegionPosition(a) != GetRegionPosition(b)
  {
  }

  /** Every Desikan-Killiany lobe is one the switch lists, so no region of that atlas falls to the
      default placement. */
  lemma DkLobesAreKnown()
    ensures forall i :: 0 <= i < |DK.DkLeftLobes| ==> Lower(DK.DkLeftLobes[i]) in KnownLobes
    ensures forall i :: 0 <= i < |DK.DkRightLobes| ==> Lower(DK.DkRightLobes[i]) in KnownLobes
  {
    assert Lower("Frontal") == "frontal" && Lower("Parietal") == "parietal" && Lower("Temporal") == "temporal";
    assert Lower("Occipital") == "occipital" && Lower("Limbic") == "limbic" && Lower("Insular") == "insular";
  }

  // The search panel

  /** The region object the panel hands to `onRegionSelect`, and the one a 3D click produces
      (which carries no `fullData`). `name` is `None` where the source's is `undefined`. */
  datatype Selection = Selection(name: Option<string>, id: int, fullData: Option<Listed>, atlas: Option<string>)

  /** The panel's `handleRegionClick`: `name || fullName`, the id, the record and the atlas. */
  function SelectionOf(region: Listed, atlas: string): (s: Selection)
    ensures s.fullData == Some(region) && s.id == region.id
  {
    Selection(if region.name != "" then Some(region.name) else region.fullName, region.id, Some(region), Some(atlas))
  }

  /** The list key of an item: its name, or `region_<id>` when the name is empty. */
  function RegionKey(region: Listed): string {
    if region.name != "" then region.name else "region_" + IntToString(region.id)
  }

  /** `isSelected`: a selection exists and its name is the item's key or the item's full name;
      `undefined === undefined` holds, so a nameless selection matches an item without a full
      name. */
  predicate IsSelected(selected: Option<Selection>, region: Listed) {
    selected.Some? && (selected.value.name == Some(RegionKey(region)) || selected.value.name == region.fullName)
  }

  /** Choosing an item in the list highlights it. */
  lemma ChosenItemIsHighlighted(region: Listed, atlas: string)
    ensures IsSelected(Some(SelectionOf(region, atlas)), region)
  {
  }

  /** Nothing is highlighted without a selection, and a selection by name picks out the items with
      that key or full name and no others. */
  lemma HighlightByName(name: string, region: Listed, id: int)
    ensures !IsSelected(None, region)
    ensures IsSelected(Some(Selection(Some(name), id, None, None)), region) <==>
      RegionKey(region) == name || region.fullName == Some(name)
  {
  }

  function LobeIsExactly<R>(lobeOf: R -> string, lobe: string): R -> bool {
    (r: R) => lobeOf(r) == lobe
  }

  function HemisphereIsCI<R>(hemisphereOf: R -> string, hemisphere: string): R -> bool {
    (r: R) => Lower(hemisphereOf(r)) == Lower(hemisphere)
  }

  /** The rows the pipeline starts from: the search results when the trimmed query is not blank,
      else every region. */
  function SearchStage<R>(all: seq<R>, searched: seq<R>, query: string): seq<R> {
    if Trim(query) != "" then searched else all
  }

  /** `filteredRegions` before its sort: the search stage, then the regions whose lobe is exactly
      `filterLobe` unless it is `all`, then those whose hemisphere matches `filterHemisphere`
      without regard to case unless it is `all`. */
  function Pipeline<R(==, !new)>(all: seq<R>, searched: seq<R>, query: string, filterLobe: string, filterHemisphere: string,
                           lobeOf: R -> string, hemisphereOf: R -> string): (rs: seq<R>)
    ensures IsSubsequence(rs, SearchStage(all, searched, query))
    ensures forall r :: r in rs <==> (&& r in SearchStage(all, searched, query)
                                      && (filterLobe == "all" || lobeOf(r) == filterLobe)
                                      && (filterHemisphere == "all" || Lower(hemisphereOf(r)) == Lower(filterHemisphere)))
  {
    var s := SearchStage(all, searched, query);
    var l := if filterLobe != "all" then Filter(s, LobeIsExactly(lobeOf, filterLobe)) else s;
    var h := if filterHemisphere != "all" then Filter(l, HemisphereIsCI(hemisphereOf, filterHemisphere)) else l;
    IsSubsequenceReflexive(s);
    IsSubsequenceReflexive(l);
    IsSubsequenceTransitive(h, l, s);
    h
  }

  /** The two filters are one filter by both tests, so their order does not matter. */
  lemma PipelineIsOneFilter<R(!new)>(all: seq<R>, searched: seq<R>, query: string, filterLobe: string, filterHemisphere: string,
                               lobeOf: R -> string, hemisphereOf: R -> string)
    requires filterLobe != "all" && filterHemisphere != "all"
    ensures Pipeline(all, searched, query, filterLobe, filterHemisphere, lobeOf, hemisphereOf)
      == Filter(SearchStage(all, searched, query), Both(LobeIsExactly(lobeOf, filterLobe), HemisphereIsCI(hemisphereOf, filterHemisphere)))
      == Filter(Filter(SearchStage(all, searched, query), HemisphereIsCI(hemisphereOf, filterHemisphere)), LobeIsExactly(lobeOf, filterLobe))
  {
    var s := SearchStage(all, searched, query);
    var p, q := LobeIsExactly(lobeOf, filterLobe), HemisphereIsCI(hemisphereOf, filterHemisphere);
    FilterFilter(s, p, q);
    FilterFilter(s, q, p);
    FilterSameTest(s, Both(q, p), Both(p, q));
  }

  /** With a blank query and both filters at `all` the panel lists every region. */
  lemma NoFilterListsAll<R(!new)>(all: seq<R>, searched: seq<R>, query: string, lobeOf: R -> string, hemisphereOf: R -> string)
    requires Trim(query) == ""
    ensures Pipeline(all, searched, query, "all", "all", lobeOf, hemisphereOf) == all
  {
  }

  function DkLobe(r: DK.DkRegion): string { r.lobe }
  function DkHemisphere(r: DK.DkRegion): string { r.hemisphere }

  /** `filteredRegions` over a Desikan-Killiany table, before the sort. */
  function DkListing(table: seq<DK.DkRegion>, query: string, filterLobe: string, filterHemisphere: string): seq<DK.DkRegion> {
    Pipeline(table, DK.SearchRegions(table, query), query, filterLobe, filterHemisphere, DkLobe, DkHemisphere)
  }

  /** `filteredRegions` over an AAL table, before the sort. */
  function AalListing(table: seq<BR.Entry>, query: string, filterLobe: string, filterHemisphere: string): seq<BR.AalRegion> {
    Pipeline(BR.Values(table), BR.SearchRegions(table, query), query, filterLobe, filterHemisphere, BR.LobeOf, BR.HemisphereOf)
  }

  /** `filteredRegions`, before the sort, as the list shows it: the atlas chosen picks the table. */
  function FilteredRegions(selectedAtlas: string, query: string, filterLobe: string, filterHemisphere: string): seq<Listed> {
    if selectedAtlas == "desikan-killiany" then
      Map(DkListing(DK.DesikanKillianyRegions, query, filterLobe, filterHemisphere), DkListed)
    else Map(AalListing(BR.BrainRegionsData, query, filterLobe, filterHemisphere), AalListed)
  }

  /** A Desikan-Killiany region is listed exactly when it matches the query (or the query is
      blank), has the lobe asked for, and has the hemisphere asked for in any case. */
  lemma DkListingMembership(table: seq<DK.DkRegion>, query: string, filterLobe: string, filterHemisphere: string, r: DK.DkRegion)
    ensures r in DkListing(table, query, filterLobe, filterHemisphere) <==>
      && r in table
      && (Trim(query) == "" || DK.MatchesTerm(r, Lower(query)))
      && (filterLobe == "all" || r.lobe == filterLobe)
      && (filterHemisphere == "all" || Lower(r.hemisphere) == Lower(filterHemisphere))
  {
  }

  /** An AAL region is listed exactly when it matches the query (or the query is blank), has the
      lobe asked for, and has the hemisphere asked for in any case. */
  lemma AalListingMembership(table: seq<BR.Entry>, query: string, filterLobe: string, filterHemisphere: string, r: BR.AalRegion)
    ensures r in AalListing(table, query, filterLobe, filterHemisphere) <==>
      && r in BR.Values(table)
      && (Trim(query) == "" || BR.MatchesQuery(r, Lower(query)))
      && (filterLobe == "all" || r.lobe == filterLobe)
      && (filterHemisphere == "all" || Lower(r.hemisphere) == Lower(filterHemisphere))
  {
  }

  /** A hemisphere filter alone is one filter of what the search stage returns. */
  lemma HemisphereOnly<R(!new)>(all: seq<R>, searched: seq<R>, query: string, filterHemisphere: string,
                                lobeOf: R -> string, hemisphereOf: R -> string)
    requires filterHemisphere != "all"
    ensures Pipeline(all, searched, query, "all", filterHemisphere, lobeOf, hemisphereOf)
      == Filter(SearchStage(all, searched, query), HemisphereIsCI(hemisphereOf, filterHemisphere))
  {
  }

  /** With no query and every lobe, picking a hemisphere lists what `getRegionsByHemisphere`
      returns for it, whatever the table. */
  lemma DkHemisphereIsByHemisphere(t: seq<DK.DkRegion>, query: string, filterHemisphere: string)
    requires Trim(query) == "" && filterHemisphere != "all"
    ensures DkListing(t, query, "all", filterHemisphere) == DK.GetRegionsByHemisphere(t, filterHemisphere)
  {
    HemisphereOnly(t, DK.SearchRegions(t, query), query, filterHemisphere, DkLobe, DkHemisphere);
    assert SearchStage(t, DK.SearchRegions(t, query), query) == t;
    FilterSameTest(t, HemisphereIsCI(DkHemisphere, filterHemisphere), DK.HemisphereIs(filterHemisphere));
  }

  /** Picking one hemisphere of the Desikan-Killiany table (`DkTable(DkLeftText, DkRightText)`,
      here with any text columns), with no query and every lobe, lists exactly that hemisphere's
      34 regions. */
  lemma DkHemisphereListing(left: DK.DkText, right: DK.DkText, query: string, filterHemisphere: string)
    requires Trim(query) == "" && (Lower(filterHemisphere) == "left" || Lower(filterHemisphere) == "right")
    ensures var t := DK.DkTable(left, right);
      var listed := DkListing(t, query, "all", filterHemisphere);
      && listed == DK.GetRegionsByHemisphere(t, filterHemisphere) && |listed| == 34
  {
    assert filterHemisphere != "all" by {
      assert Lower("all") == "all";
    }
    DkHemisphereIsByHemisphere(DK.DkTable(left, right), query, filterHemisphere);
    if Lower(filterHemisphere) == "left" {
      DK.LeftHemisphereIsLeftHalf(left, right, filterHemisphere);
    } else {
      DK.RightHemisphereIsRightHalf(left, right, filterHemisphere);
    }
  }

  // The main component's state

  /** The target the camera may be given: some region's placement. */
  predicate IsRegionTarget(t: CameraTarget) {
    && t.targetPoint == Vec3(0.3 * t.position.x, 0.5 * t.position.y, 0.3 * t.position.z)
    && 4.0 <= t.distance <= 6.0 && -1.5 <= t.position.x <= 1.5
  }

  /** The state `EnhancedApp` keeps for the selection and the camera (the panel toggles and
      auto-rotation are not part of the model). */
  class AppState {
    var selectedRegion: Option<Selection>
    var resetViewTrigger: int
    var selectedAtlas: string
    var cameraTarget: Option<CameraTarget>

    /** The trigger only counts up from zero and the camera target, when set, is a region's
        placement. */
    ghost predicate Valid()
      reads this
    {
      resetViewTrigger >= 0 && (cameraTarget.Some? ==> IsRegionTarget(cameraTarget.value))
    }

    /** The initial state: nothing selected, trigger 0, the Desikan-Killiany atlas, no target. */
    constructor()
      ensures Valid()
      ensures selectedRegion == None && resetViewTrigger == 0 && selectedAtlas == "desikan-killiany"
      ensures cameraTarget == None
    {
      selectedRegion := None;
      resetViewTrigger := 0;
      selectedAtlas := "desikan-killiany";
      cameraTarget := None;
    }

    /** `handleRegionClick`: the selection is always replaced; the camera target moves to the
        region's placement only when the region carries its record, and stays otherwise. */
    method HandleRegionClick(region: Option<Selection>)
      requires Valid()
      modifies this
      ensures Valid()
      ensures selectedRegion == region
      ensures region.Some? && region.value.fullData.Some? ==>
        cameraTarget == Some(GetRegionPosition(region.value.fullData.value))
      ensures !(region.Some? && region.value.fullData.Some?) ==> cameraTarget == old(cameraTarget)
      ensures resetViewTrigger == old(resetViewTrigger) && selectedAtlas == old(selectedAtlas)
    {
      selectedRegion := region;
      if region.Some? && region.value.fullData.Some? {
        var targetPosition := GetRegionPosition(region.value.fullData.value);
        cameraTarget := Some(targetPosition);
      }
    }

    /** `handleClearSelection`: no selection and no target. */
    method HandleClearSelection()
      requires Valid()
      modifies this
      ensures Valid()
      ensures selectedRegion == None && cameraTarget == None
      ensures resetViewTrigger == old(resetViewTrigger) && selectedAtlas == old(selectedAtlas)
    {
      selectedRegion := None;
      cameraTarget := None;
    }

    /** `handleResetView`: the trigger counts up and the target is dropped; the selection stays. */
    method HandleResetView()
      requires Valid()
      modifies this
      ensures Valid()
      ensures resetViewTrigger == old(resetViewTrigger) + 1 && cameraTarget == None
      ensures selectedRegion == old(selectedRegion) && selectedAtlas == old(selectedAtlas)
    {
      resetViewTrigger := resetViewTrigger + 1;
      cameraTarget := None;
    }

    /** `handleAtlasChange`: the new atlas, with no selection and no target. */
    method HandleAtlasChange(atlas: string)
      requires Valid()
      modifies this
      ensures Valid()
      ensures selectedAtlas == atlas && selectedRegion == None && cameraTarget == None
      ensures resetViewTrigger == old(resetViewTrigger)
    {
      selectedAtlas := atlas;
      selectedRegion := None;
      cameraTarget := None;
    }
  }

  /** Choosing an item in the panel makes it the highlighted one and points the camera at it. */
  method ChooseListedRegion(app: AppState, region: Listed)
    requires app.Valid()
    modifies app
    ensures app.Valid()
    ensures IsSelected(app.selectedRegion, region)
    ensures app.cameraTarget == Some(GetRegionPosition(region))
  {
    app.HandleRegionClick(Some(SelectionOf(region, app.selectedAtlas)));
    ChosenItemIsHighlighted(region, old(app.selectedAtlas));
  }
}
