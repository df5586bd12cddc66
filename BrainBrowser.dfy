/** The decisions of `src/components/BrainBrowser.jsx`: which model component to render, how the
    GLB model turns a mesh name into a region, how the OBJ model with an atlas colours its
    vertices, and how that model reports clicks and hovers. */
module BrainBrowser {
  import opened Wrappers
  import opened JsText
  import opened JsArray
  import opened AtlasParser
  import opened BrainRegions

  // ---------------------------------------------------------------------------------------
  // getModelComponent

  /** The three model components the browser can render. */
  datatype ModelComponent = SimpleBrainModel | GLBBrainModel | AdvancedBrainModel

  /** `modelUrl` is truthy: present and not the empty string. */
  predicate Truthy(modelUrl: Option<string>) {
    modelUrl.Some? && modelUrl.value != ""
  }

  /** `modelUrl.split('.').pop().toLowerCase()`. */
  function Extension(modelUrl: string): string {
    Lower(LastPiece(modelUrl, '.'))
  }

  /** `getModelComponent`. A forced simple model or a missing URL wins over everything; then, for
      `'auto'`, the file extension decides; then an explicit `'glb'` or `'obj'`; the simple model
      is the fallback, also for `'auto'` with an unknown extension. */
  function GetModelComponent(useSimpleModel: bool, modelUrl: Option<string>, modelType: string): (c: ModelComponent)
    ensures useSimpleModel || !Truthy(modelUrl) ==> c == SimpleBrainModel
    ensures c == GLBBrainModel <==>
      && !useSimpleModel && Truthy(modelUrl)
      && ((modelType == "auto" && Extension(modelUrl.value) in {"glb", "gltf"}) || modelType == "glb")
    ensures c == AdvancedBrainModel <==>
      && !useSimpleModel && Truthy(modelUrl)
      && ((modelType == "auto" && Extension(modelUrl.value) == "obj") || modelType == "obj")
  {
    if useSimpleModel || !Truthy(modelUrl) then SimpleBrainModel
    else if modelType == "auto" && Extension(modelUrl.value) in {"glb", "gltf"} then GLBBrainModel
    else if modelType == "auto" && Extension(modelUrl.value) == "obj" then AdvancedBrainModel
    else if modelType == "glb" then GLBBrainModel
    else if modelType == "obj" then AdvancedBrainModel
    else SimpleBrainModel
  }

  /** A URL named `stem.ext` has extension `ext`, whatever the case it is written in: for `'auto'`
      the component depends on the lower-cased extension only. */
  lemma AutoUsesLastExtension(stem: string, ext: string, useSimpleModel: bool)
    requires '.' !in ext
    ensures Extension(stem + "." + ext) == Lower(ext)
    ensures GetModelComponent(useSimpleModel, Some(stem + "." + ext), "auto")
         == GetModelComponent(useSimpleModel, Some(stem + "." + Lower(ext)), "auto")
  {
    LastPieceOfSuffix(stem, '.', ext);
    LastPieceOfSuffix(stem, '.', Lower(ext));
    LowerIdempotent(ext);
  }

  /** An explicit model type ignores the URL, as long as there is one. */
  lemma ExplicitTypeIgnoresUrl(useSimpleModel: bool, url1: string, url2: string, modelType: string)
    requires modelType != "auto" && url1 != "" && url2 != ""
    ensures GetModelComponent(useSimpleModel, Some(url1), modelType) == GetModelComponent(useSimpleModel, Some(url2), modelType)
  {
  }

  // ---------------------------------------------------------------------------------------
  // GLBBrainModel: mesh names

  /** `meshName.toLowerCase().includes(key.toLowerCase().replace('_', ''))`: only the first `_` of
      the key is removed. */
  predicate KeyInMeshName(meshName: string, key: string) {
    Contains(Lower(meshName), ReplaceFirst(Lower(key), '_', ""))
  }

  function MeshMatches(meshName: string): string -> bool {
    key => KeyInMeshName(meshName, key)
  }

  /** The first key, in table order, whose lower-cased form without its first `_` occurs in the
      lower-cased mesh name. */
  function MatchMeshKey(keys: seq<string>, meshName: string): (m: Option<string>)
    ensures m.Some? ==>
      exists i :: (0 <= i < |keys| && keys[i] == m.value && KeyInMeshName(meshName, keys[i])
        && forall j :: 0 <= j < i ==> !KeyInMeshName(meshName, keys[j]))
    ensures m.None? <==> forall j :: 0 <= j < |keys| ==> !KeyInMeshName(meshName, keys[j])
  {
    Find(keys, MeshMatches(meshName))
  }

  /** Only the first underscore of a key goes: a key `a_b` with no underscore in `a` is looked
      for as `ab`, so a key with two underscores is looked for with the second still in place. */
  lemma OnlyFirstUnderscoreRemoved(meshName: string, a: string, b: string)
    requires '_' !in a
    ensures KeyInMeshName(meshName, a + "_" + b) <==> Contains(Lower(meshName), Lower(a) + Lower(b))
    ensures '_' in b ==> '_' in Lower(a) + Lower(b)
  {
    var key := a + "_" + b;
    assert Lower(key) == Lower(a) + "_" + Lower(b);
    assert '_' !in Lower(a) by {
      forall k | 0 <= k < |a|
        ensures Lower(a)[k] != '_'
      {
        assert a[k] != '_';
      }
    }
    ReplaceFirstRemovesOne(Lower(a), '_', Lower(b));
    if '_' in b {
      var k :| 0 <= k < |b| && b[k] == '_';
      assert (Lower(a) + Lower(b))[|a| + k] == '_';
    }
  }

  /** The `{ name, id }` object handed to `onRegionClick` and `setHoveredRegion`. */
  datatype RegionRef = RegionRef(name: string, id: int)

  /** The reference for a matched key. */
  function RefOf(table: seq<Entry>, key: string): RegionRef
    requires key in Keys(table)
  {
    RegionRef(key, GetRegionByName(table, key).value.id)
  }

  /** What a click on a mesh reports: the matched key and its id, or `Frontal_Sup_L` with id 1. */
  function GlbClick(table: seq<Entry>, meshName: string): (r: RegionRef)
    ensures MatchMeshKey(Keys(table), meshName).None? ==> r == RegionRef("Frontal_Sup_L", 1)
    ensures MatchMeshKey(Keys(table), meshName).Some? ==>
      r.name == MatchMeshKey(Keys(table), meshName).value
      && exists i :: 0 <= i < |table| && table[i].key == r.name && table[i].region.id == r.id
  {
    match MatchMeshKey(Keys(table), meshName)
    case Some(key) => RefOf(table, key)
    case None => RegionRef("Frontal_Sup_L", 1)
  }

  /** The hover after the pointer enters a mesh: the matched region, or the earlier hover when
      nothing matches. */
  function GlbPointerOver(table: seq<Entry>, meshName: string, hovered: Option<RegionRef>): (h: Option<RegionRef>)
    ensures MatchMeshKey(Keys(table), meshName).None? ==> h == hovered
    ensures MatchMeshKey(Keys(table), meshName).Some? ==> h == Some(GlbClick(table, meshName))
  {
    match MatchMeshKey(Keys(table), meshName)
    case Some(key) => Some(RefOf(table, key))
    case None => hovered
  }

  /** The fallback of a click is the first entry of `brainRegionsData`, as the source's comment
      says. */
  lemma ClickFallbackIsFirstEntry(texts: seq<AalText>)
    ensures var table := Assemble(AalKeys, AalIdentities, texts);
      |table| > 0 && RegionRef(table[0].key, table[0].region.id) == RegionRef("Frontal_Sup_L", 1)
  {
    ColumnsShape();
  }

  // ---------------------------------------------------------------------------------------
  // AdvancedBrainModel: vertex colours

  /** The colour of vertex `i`: grey when it is unlabelled or its name is not a key of the table,
      else the table colour; brightened by 1.5 when selected, else 1.2 when hovered; capped at 1. */
  /** The colour of the table entry named `name`, or the default grey when there is none. */
  function BrowserBaseColor(table: seq<Entry>, name: string): RGB {
    match GetRegionByName(table, name)
    case Some(info) => HexToRGB(info.color)
    case None => DefaultColor
  }

  function BrowserVertexColor(vertexToRegion: map<int, RegionData>, table: seq<Entry>,
                              selected: Option<string>, hovered: Option<string>, i: int): RGB
  {
    if i in vertexToRegion then
      var d := vertexToRegion[i];
      Shade(BrowserBaseColor(table, d.name), Multiplier(d, selected, hovered))
    else Shade(DefaultColor, 1.0)
  }

  /** The colour buffer: three channels per vertex, vertex after vertex. */
  function BrowserColorBuffer(count: nat, vertexToRegion: map<int, RegionData>, table: seq<Entry>,
                              selected: Option<string>, hovered: Option<string>): (buf: seq<real>)
    ensures |buf| == 3 * count
  {
    if count == 0 then []
    else
      var c := BrowserVertexColor(vertexToRegion, table, selected, hovered, count - 1);
      BrowserColorBuffer(count - 1, vertexToRegion, table, selected, hovered) + [c.r, c.g, c.b]
  }

  /** Channel `k` of vertex `i` sits at position `3 * i + k`. */
  lemma {:induction false} BrowserBufferLayout(count: nat, vertexToRegion: map<int, RegionData>, table: seq<Entry>,
                                               selected: Option<string>, hovered: Option<string>, i: nat, k: nat)
    requires i < count && k < 3
    ensures BrowserColorBuffer(count, vertexToRegion, table, selected, hovered)[3 * i + k]
         == Channel(BrowserVertexColor(vertexToRegion, table, selected, hovered, i), k)
    decreases count
  {
    if i < count - 1 {
      BrowserBufferLayout(count - 1, vertexToRegion, table, selected, hovered, i, k);
    }
  }

  /** Every channel of a vertex colour lies in `[0, 1]`: table colours come from `hexToRGB`,
      the multiplier is at least 1 and the cap holds. */
  lemma BrowserVertexColorBounds(vertexToRegion: map<int, RegionData>, table: seq<Entry>,
                                 selected: Option<string>, hovered: Option<string>, i: int, k: nat)
    ensures 0.0 <= Channel(BrowserVertexColor(vertexToRegion, table, selected, hovered, i), k) <= 1.0
  {
    if i in vertexToRegion {
      var c := BrowserBaseColor(table, vertexToRegion[i].name);
      assert InUnitCube(c);
    }
  }

  /** Every entry of the buffer lies in `[0, 1]`. */
  lemma BrowserBufferBounds(count: nat, vertexToRegion: map<int, RegionData>, table: seq<Entry>,
                            selected: Option<string>, hovered: Option<string>)
    ensures forall k :: 0 <= k < 3 * count ==>
      0.0 <= BrowserColorBuffer(count, vertexToRegion, table, selected, hovered)[k] <= 1.0
  {
    forall k | 0 <= k < 3 * count
      ensures 0.0 <= BrowserColorBuffer(count, vertexToRegion, table, selected, hovered)[k] <= 1.0
    {
      assert 3 * (k / 3) + k % 3 == k;
      BrowserBufferLayout(count, vertexToRegion, table, selected, hovered, k / 3, k % 3);
      BrowserVertexColorBounds(vertexToRegion, table, selected, hovered, k / 3, k % 3);
    }
  }

  /** A labelled vertex whose name is not a key of the table is grey, even when selected. */
  lemma UnknownNameIsGrey(vertexToRegion: map<int, RegionData>, table: seq<Entry>,
                          selected: Option<string>, hovered: Option<string>, i: int)
    requires i in vertexToRegion && vertexToRegion[i].name !in Keys(table)
    ensures var c := BrowserVertexColor(vertexToRegion, table, selected, hovered, i);
      c.r == c.g == c.b && 0.7 <= c.r <= 1.0
  {
  }

  /** The loop body: the three channels of vertex `i`. */
  method BrowserChannels(vertexToRegion: map<int, RegionData>, table: seq<Entry>,
                         selected: Option<string>, hovered: Option<string>, i: int)
    returns (r: real, g: real, b: real)
    ensures RGB(r, g, b) == BrowserVertexColor(vertexToRegion, table, selected, hovered, i)
  {
    var color := DefaultColor;
    var multiplier := 1.0;
    if i in vertexToRegion {
      var regionData := vertexToRegion[i];
      var regionInfo := GetRegionByName(table, regionData.name);
      if regionInfo.Some? {
        color := HexToRGB(regionInfo.value.color);
      }
      if selected == Some(regionData.name) {
        multiplier := 1.5;
      } else if hovered == Some(regionData.name) {
        multiplier := 1.2;
      }
    }
    r := Capped(color.r, multiplier);
    g := Capped(color.g, multiplier);
    b := Capped(color.b, multiplier);
  }

  /** The colour effect of `AdvancedBrainModel`: the buffer it installs, or `None` when the model,
      the mesh or the atlas is not there yet. `positionCount` is `None` while there is no mesh. */
  method AdvancedModelColors(positionCount: Option<nat>, atlasData: Option<AtlasData>, table: seq<Entry>,
                             selected: Option<string>, hovered: Option<string>)
    returns (colors: Option<seq<real>>)
    ensures colors.None? <==> positionCount.None? || atlasData.None?
    ensures colors.Some? ==>
      colors.value == BrowserColorBuffer(positionCount.value, atlasData.value.vertexToRegion, table, selected, hovered)
  {
    if positionCount.None? || atlasData.None? {
      return None;
    }
    var count := positionCount.value;
    var vertexToRegion := atlasData.value.vertexToRegion;
    var buffer := new real[count * 3];
    for i := 0 to count
      invariant buffer[..3 * i] == BrowserColorBuffer(i, vertexToRegion, table, selected, hovered)
    {
      var r, g, b := BrowserChannels(vertexToRegion, table, selected, hovered, i);
      ghost var done := buffer[..3 * i];
      buffer[i * 3] := r;
      buffer[i * 3 + 1] := g;
      buffer[i * 3 + 2] := b;
      assert buffer[..3 * i] == done;
      assert buffer[..3 * (i + 1)] == done + [r, g, b];
    }
    assert buffer[..] == buffer[..3 * count];
    return Some(buffer[..]);
  }

  // ---------------------------------------------------------------------------------------
  // AdvancedBrainModel: click and pointer move

  /** The region a click reports to `onRegionClick`, or `None` when it reports nothing: while
      the atlas is loading, without a callback, or when the face has no labelled corner. */
  function AdvancedClick(atlasData: Option<AtlasData>, hasCallback: bool, faceIndex: int, geometry: Option<Geometry>): (r: Option<RegionData>)
    ensures r.Some? <==> atlasData.Some? && hasCallback && RegionFromFace(faceIndex, geometry, Some(atlasData.value.vertexToRegion)).Some?
    ensures r.Some? ==> r == RegionFromFace(faceIndex, geometry, Some(atlasData.value.vertexToRegion))
  {
    if atlasData.None? then None
    else
      var region := RegionFromFace(faceIndex, geometry, Some(atlasData.value.vertexToRegion));
      if region.Some? && hasCallback then region else None
  }

  /** The hover after a pointer move: unchanged while the atlas is loading, otherwise the face's
      region, which clears the hover when the face has no labelled corner. */
  function AdvancedPointerMove(atlasData: Option<AtlasData>, faceIndex: int, geometry: Option<Geometry>,
                               hovered: Option<RegionData>): (h: Option<RegionData>)
    ensures atlasData.None? ==> h == hovered
    ensures atlasData.Some? ==> h == RegionFromFace(faceIndex, geometry, Some(atlasData.value.vertexToRegion))
  {
    if atlasData.None? then hovered
    else RegionFromFace(faceIndex, geometry, Some(atlasData.value.vertexToRegion))
  }

  /** A move over a face with no labelled corner clears the hover, while a click there reports
      nothing: the two handlers treat `null` differently. */
  lemma MoveClearsWhereClickIsSilent(atlas: AtlasData, faceIndex: int, geometry: Geometry, hovered: Option<RegionData>)
    requires geometry.index.Some?
    requires forall c :: 0 <= c < 3 ==> Corners(atlas.vertexToRegion, geometry.index.value, faceIndex)[c].None?
    ensures AdvancedPointerMove(Some(atlas), faceIndex, Some(geometry), hovered) == None
    ensures AdvancedClick(Some(atlas), true, faceIndex, Some(geometry)) == None
  {
    FaceVote(faceIndex, Some(geometry), Some(atlas.vertexToRegion));
  }
}
