/** The older, self-contained atlas viewer of `src/AdvancedBrainViewer.jsx`: its own AAL parser,
    its click and hover resolution, its colour cascade and its vertex-colour loop. Each part is
    set beside its counterpart in `src/utils/atlasParser.js`. */
module AdvancedBrainViewer {
  import opened Wrappers
  import opened JsText
  import opened JsArray
  import opened MajorityVote
  import opened AtlasParser

  /** What this parser stores for a vertex: an id that may be `NaN` (`None`) and a name. */
  datatype ViewerRegion = ViewerRegion(id: Option<int>, name: string)

  /** A `set` the parser performs: the parsed vertex index and the record. */
  datatype ViewerEntry = ViewerEntry(key: Option<int>, region: ViewerRegion)

  /** The `Map` this parser builds. Its keys are `parseInt` results, so `NaN` (`None`) is one
      key among the others. */
  type ViewerAtlas = map<Option<int>, ViewerRegion>

  /** The entry one line contributes: every line of at least two tokens, with no comment or
      `NaN` check. */
  function ParseViewerLine(line: string, parseInt: IntParser): Option<ViewerEntry> {
    var parts := SplitTrimmedWs(Trim(line));
    if |parts| < 2 then None
    else
      var regionId := parseInt(parts[1]);
      Some(ViewerEntry(parseInt(parts[0]), ViewerRegion(regionId, RegionName(parts, regionId))))
  }

  /** A line is stored exactly when it has at least two tokens once trimmed. */
  lemma ViewerLineKept(line: string, parseInt: IntParser)
    ensures ParseViewerLine(line, parseInt).Some? <==> |Words(Trim(line))| >= 2
  {
  }

  function ParsedViewerLines(lines: seq<string>, parseInt: IntParser): (es: seq<Option<ViewerEntry>>)
    ensures |es| == |lines| && forall i :: 0 <= i < |lines| ==> es[i] == ParseViewerLine(lines[i], parseInt)
  {
    Map(lines, ViewerLineParser(parseInt))
  }

  function ViewerLineParser(parseInt: IntParser): string -> Option<ViewerEntry> {
    (line: string) => ParseViewerLine(line, parseInt)
  }

  /** One step of the fold: an entry is `set` under its key, replacing any earlier one. */
  function AbsorbEntry(atlas: ViewerAtlas, e: Option<ViewerEntry>): ViewerAtlas {
    match e
    case None => atlas
    case Some(e) => atlas[e.key := e.region]
  }

  function FoldViewer(es: seq<Option<ViewerEntry>>): ViewerAtlas
    decreases |es|
  {
    if es == [] then map[] else AbsorbEntry(FoldViewer(es[..|es| - 1]), es[|es| - 1])
  }

  lemma ViewerFoldStep(es: seq<Option<ViewerEntry>>, n: nat)
    requires n < |es|
    ensures FoldViewer(es[..n + 1]) == AbsorbEntry(FoldViewer(es[..n]), es[n])
  {
    assert es[..n + 1][..n] == es[..n];
  }

  /** The `forEach` callback of this file's `parseAALAtlas`. */
  method AbsorbViewerLine(line: string, parseInt: IntParser, vertexToRegion0: ViewerAtlas)
    returns (vertexToRegion: ViewerAtlas)
    ensures vertexToRegion == AbsorbEntry(vertexToRegion0, ParseViewerLine(line, parseInt))
  {
    vertexToRegion := vertexToRegion0;
    var parts := SplitTrimmedWs(Trim(line));
    if |parts| >= 2 {
      var vertexIndex := parseInt(parts[0]);
      var regionId := parseInt(parts[1]);
      var regionName := RegionName(parts, regionId);
      vertexToRegion := vertexToRegion[vertexIndex := ViewerRegion(regionId, regionName)];
    }
  }

  /** The `forEach` of this file's `parseAALAtlas`: the lines in order, each `set` in turn. */
  method AbsorbViewerLines(lines: seq<string>, parseInt: IntParser) returns (vertexToRegion: ViewerAtlas)
    ensures vertexToRegion == FoldViewer(ParsedViewerLines(lines, parseInt))
  {
    ghost var es := ParsedViewerLines(lines, parseInt);
    vertexToRegion := map[];
    for index := 0 to |lines|
      invariant vertexToRegion == FoldViewer(es[..index])
    {
      ViewerFoldStep(es, index);
      vertexToRegion := AbsorbViewerLine(lines[index], parseInt, vertexToRegion);
    }
    assert es[..|lines|] == es;
  }

  /** This file's `parseAALAtlas`. */
  method ParseAALAtlas(atlasText: string, parseInt: IntParser) returns (vertexToRegion: ViewerAtlas)
    ensures vertexToRegion == FoldViewer(ParsedViewerLines(Lines(atlasText), parseInt))
  {
    var lines := SplitOn(Trim(atlasText), '\n');
    vertexToRegion := AbsorbViewerLines(lines, parseInt);
  }

  /** The entry this parser makes of a record `src/utils/atlasParser.js` accepts. */
  function AsViewerEntry(d: RegionData): ViewerEntry {
    ViewerEntry(Some(d.vertexIndex), ViewerRegion(Some(d.id), d.name))
  }

  /** On a line the newer parser accepts, both parsers store the same vertex, id and name. */
  lemma AgreesOnValidLine(line: string, parseInt: IntParser)
    requires ParseLine(line, parseInt).Some?
    ensures ParseViewerLine(line, parseInt) == Some(AsViewerEntry(ParseLine(line, parseInt).value))
  {
  }

  /** A comment line of two or more tokens is dropped by the newer parser but stored here, under
      the key `parseInt` makes of its first token: `NaN` for a token such as `#`, so all such
      comment lines collapse onto that one key and the last of them wins. */
  lemma CommentLineIsStored(line: string, parseInt: IntParser)
    requires StartsWith(Trim(line), "#") && |Words(Trim(line))| >= 2
    ensures ParseLine(line, parseInt).None?
    ensures ParseViewerLine(line, parseInt).Some?
    ensures parseInt(Words(Trim(line))[0]).None? ==> ParseViewerLine(line, parseInt).value.key.None?
  {
  }

  /** `viewer` holds, under `Some(v)`, the id and name of each record of `m`, and nothing else. */
  ghost predicate SameVertices(viewer: ViewerAtlas, m: map<int, RegionData>) {
    && None !in viewer
    && (forall v :: Some(v) in viewer <==> v in m)
    && (forall v :: v in m ==> viewer[Some(v)] == ViewerRegion(Some(m[v].id), m[v].name))
  }

  /** When every line is one the newer parser accepts, the two parsers build the same map. */
  lemma {:induction false} FoldsAgree(es: seq<Option<ViewerEntry>>, recs: seq<Option<RegionData>>)
    requires |es| == |recs|
    requires forall i :: 0 <= i < |recs| ==> recs[i].Some? && es[i] == Some(AsViewerEntry(recs[i].value))
    ensures SameVertices(FoldViewer(es), FoldRecords(recs).vertexToRegion)
    decreases |es|
  {
    if es != [] {
      var n := |es| - 1;
      assert forall i :: 0 <= i < n ==> es[..n][i] == es[i] && recs[..n][i] == recs[i];
      FoldsAgree(es[..n], recs[..n]);
      KeysAreVertexIndices(recs[..n]);
      var d := recs[n].value;
      assert FoldRecords(recs).vertexToRegion == FoldRecords(recs[..n]).vertexToRegion[d.vertexIndex := d];
      assert FoldViewer(es) == FoldViewer(es[..n])[Some(d.vertexIndex) := ViewerRegion(Some(d.id), d.name)];
    }
  }

  lemma ParsersAgree(atlasText: string, parseInt: IntParser)
    requires forall i :: 0 <= i < |Lines(atlasText)| ==> ParseLine(Lines(atlasText)[i], parseInt).Some?
    ensures SameVertices(FoldViewer(ParsedViewerLines(Lines(atlasText), parseInt)), ParsedAtlas(atlasText, parseInt).vertexToRegion)
  {
    var lines := Lines(atlasText);
    forall i | 0 <= i < |lines|
      ensures ParseViewerLine(lines[i], parseInt) == Some(AsViewerEntry(ParseLine(lines[i], parseInt).value))
    {
      AgreesOnValidLine(lines[i], parseInt);
    }
    FoldsAgree(ParsedViewerLines(lines, parseInt), ParsedLines(lines, parseInt));
  }

  // ---------------------------------------------------------------------------------------
  // Click and hover

  /** `atlasData.get(v)` for a vertex index read from the index buffer. */
  function ViewerLookup(atlas: ViewerAtlas, v: Option<int>): Option<ViewerRegion> {
    if v.Some? && v in atlas then Some(atlas[v]) else None
  }

  /** The records of the corners `a`, `b`, `c` of face `f`. */
  function ViewerCorners(atlas: ViewerAtlas, index: seq<int>, f: int): seq<Option<ViewerRegion>> {
    [ViewerLookup(atlas, GetX(index, f * 3)),
     ViewerLookup(atlas, GetX(index, f * 3 + 1)),
     ViewerLookup(atlas, GetX(index, f * 3 + 2))]
  }

  /** The corners the handlers read when the event may carry no face: an undefined `faceIndex`
      makes every `getX(faceIndex * 3 + k)` read `getX(NaN)`, which is `undefined`. */
  function EventCorners(atlas: ViewerAtlas, index: seq<int>, faceIndex: Option<int>): seq<Option<ViewerRegion>> {
    match faceIndex
    case None => [None, None, None]
    case Some(f) => ViewerCorners(atlas, index, f)
  }

  /** `regionA || regionB || regionC`. */
  function FirstPresent(xs: seq<Option<ViewerRegion>>): (r: Option<ViewerRegion>)
    ensures r.None? <==> forall i :: 0 <= i < |xs| ==> xs[i].None?
    ensures r.Some? ==> exists i :: 0 <= i < |xs| && xs[i] == r && forall j :: 0 <= j < i ==> xs[j].None?
    decreases |xs|
  {
    if xs == [] then None
    else if xs[0].Some? then xs[0]
    else
      var r := FirstPresent(xs[1..]);
      assert forall i :: 0 <= i < |xs| - 1 ==> xs[1..][i] == xs[i + 1];
      r
  }

  /** How an event handler ends: it returns normally, with what it reports or leaves behind, or
      it throws a `TypeError` because it calls `getX` on the `null` index buffer of a geometry
      without one. */
  datatype Handled<T> = Returns(value: T) | Throws

  /** The region `handleClick` reports to `onRegionClick` (`None` when it reports nothing), or the
      `TypeError` it throws: once the atlas is loaded it reads `geometry.index.getX(...)` with no
      check that the geometry has an index buffer. */
  function ClickedRegion(atlas: Option<ViewerAtlas>, index: Option<seq<int>>, faceIndex: Option<int>): (r: Handled<Option<ViewerRegion>>)
    ensures r.Throws? <==> atlas.Some? && index.None?
    ensures atlas.None? ==> r == Returns(None)
    ensures atlas.Some? && index.Some? ==>
      var cs := EventCorners(atlas.value, index.value, faceIndex);
      && (r.value.None? <==> forall c :: 0 <= c < 3 ==> cs[c].None?)
      && (r.value.Some? ==> exists c :: 0 <= c < 3 && cs[c] == r.value && forall d :: 0 <= d < c ==> cs[d].None?)
  {
    if atlas.None? then Returns(None)
    else if index.None? then Throws
    else Returns(FirstPresent(EventCorners(atlas.value, index.value, faceIndex)))
  }

  function ViewerName(r: ViewerRegion): string {
    r.name
  }

  /** What the comment beside the click handler describes: the most common region among the
      three corners, with the vote of `getRegionFromFace`. The reading of the index buffer, and so
      the `TypeError` without one, is left as written. */
  function ClickedRegionByVote(atlas: Option<ViewerAtlas>, index: Option<seq<int>>, faceIndex: Option<int>): (r: Handled<Option<ViewerRegion>>)
    ensures r.Throws? <==> atlas.Some? && index.None?
    ensures atlas.None? ==> r == Returns(None)
    ensures atlas.Some? && index.Some? && r.value.Some? ==> r.value in EventCorners(atlas.value, index.value, faceIndex)
  {
    if atlas.None? then Returns(None)
    else if index.None? then Throws
    else
      var rs := Present(EventCorners(atlas.value, index.value, faceIndex));
      if rs == [] then Returns(None) else Returns(Some(rs[WinnerIndex(rs, ViewerName)]))
  }

  /** The click takes the first labelled corner, so it disagrees with a majority: with corners
      labelled A, B, B it reports A. */
  lemma ClickIsNotMajority()
    ensures var atlas := map[Some(0) := ViewerRegion(Some(1), "A"), Some(1) := ViewerRegion(Some(2), "B"), Some(2) := ViewerRegion(Some(2), "B")];
      && ClickedRegion(Some(atlas), Some([0, 1, 2]), Some(0)) == Returns(Some(ViewerRegion(Some(1), "A")))
      && ClickedRegionByVote(Some(atlas), Some([0, 1, 2]), Some(0)) == Returns(Some(ViewerRegion(Some(2), "B")))
  {
    var atlas := map[Some(0) := ViewerRegion(Some(1), "A"), Some(1) := ViewerRegion(Some(2), "B"), Some(2) := ViewerRegion(Some(2), "B")];
    var rs := Present(EventCorners(atlas, [0, 1, 2], Some(0)));
    assert rs == [atlas[Some(0)], atlas[Some(1)], atlas[Some(2)]];
    assert rs[..2][..1] == [atlas[Some(0)]] && rs[..2] == [atlas[Some(0)], atlas[Some(1)]];
    assert CountKey(rs[..1], ViewerName, "B") == 0;
    assert CountKey(rs[..2], ViewerName, "B") == 1;
    assert CountKey(rs, ViewerName, "B") == 2;
    StrictMajorityWins(rs, ViewerName, "B");
  }

  /** The vote answers, stays silent and throws exactly when the click does, and a name carried by
      two of the three corners always wins it. */
  lemma VoteClickProperties(atlas: Option<ViewerAtlas>, index: Option<seq<int>>, faceIndex: Option<int>, n: string)
    ensures ClickedRegionByVote(atlas, index, faceIndex).Throws? <==> ClickedRegion(atlas, index, faceIndex).Throws?
    ensures ClickedRegionByVote(atlas, index, faceIndex).Returns? ==>
      (ClickedRegionByVote(atlas, index, faceIndex).value.None? <==> ClickedRegion(atlas, index, faceIndex).value.None?)
    ensures atlas.Some? && index.Some? && 2 * CountKey(Present(EventCorners(atlas.value, index.value, faceIndex)), ViewerName, n) > 3 ==>
      ClickedRegionByVote(atlas, index, faceIndex).value.value.name == n
  {
    if atlas.Some? && index.Some? {
      var rs := Present(EventCorners(atlas.value, index.value, faceIndex));
      if 2 * CountKey(rs, ViewerName, n) > 3 {
        StrictMajorityWins(rs, ViewerName, n);
      }
    }
  }

  /** The hover after `handlePointerMove`: unchanged while the atlas is unloaded or when the
      event carries no face; otherwise the record of the face's first corner, or `None` when that
      corner is unlabelled, and a `TypeError` for a geometry without an index buffer. The other
      two corners are not consulted. */
  function HoverAfterMove(atlas: Option<ViewerAtlas>, faceIndex: Option<int>, index: Option<seq<int>>,
                          hovered: Option<ViewerRegion>): (h: Handled<Option<ViewerRegion>>)
    ensures atlas.None? || faceIndex.None? ==> h == Returns(hovered)
    ensures h.Throws? <==> atlas.Some? && faceIndex.Some? && index.None?
    ensures atlas.Some? && faceIndex.Some? && index.Some? ==>
      h == Returns(ViewerCorners(atlas.value, index.value, faceIndex.value)[0])
  {
    if atlas.None? then Returns(hovered)
    else if faceIndex.None? then Returns(hovered)
    else if index.None? then Throws
    else Returns(ViewerLookup(atlas.value, GetX(index.value, faceIndex.value * 3)))
  }

  /** A geometry without an index buffer is an error path the two copies of the pipeline take
      apart: `getRegionFromFace` answers `null` for it, while this viewer's click and pointer move
      throw as soon as the atlas is loaded. */
  lemma MissingIndexThrowsHere(atlas: ViewerAtlas, vertexToRegion: map<int, RegionData>, positionCount: Option<nat>,
                               f: int, hovered: Option<ViewerRegion>)
    ensures RegionFromFace(f, Some(Geometry(None, positionCount)), Some(vertexToRegion)).None?
    ensures ClickedRegion(Some(atlas), None, Some(f)).Throws?
    ensures HoverAfterMove(Some(atlas), Some(f), None, hovered).Throws?
  {
  }

  // ---------------------------------------------------------------------------------------
  // getRegionColor

  function AnatomicalColor(regionName: string): RGB {
    var lowerName := Lower(regionName);
    if Contains(lowerName, "frontal") then HexToRGB("#FF6B6B")
    else if Contains(lowerName, "parietal") then HexToRGB("#4ECDC4")
    else if Contains(lowerName, "temporal") then HexToRGB("#95E1D3")
    else if Contains(lowerName, "occipital") then HexToRGB("#F38181")
    else if Contains(lowerName, "cerebellum") then HexToRGB("#FCE38A")
    else if Contains(lowerName, "cingul") then HexToRGB("#AA96DA")
    else HexToRGB("#C9C9C9")
  }

  function FunctionalColor(regionName: string): RGB {
    var lowerName := Lower(regionName);
    if Contains(lowerName, "motor") || Contains(lowerName, "precentral") then HexToRGB("#E74C3C")
    else if Contains(lowerName, "sensory") || Contains(lowerName, "postcentral") then HexToRGB("#3498DB")
    else if Contains(lowerName, "visual") || Contains(lowerName, "occipital") then HexToRGB("#9B59B6")
    else if Contains(lowerName, "auditory") || Contains(lowerName, "temporal") then HexToRGB("#F39C12")
    else HexToRGB("#95A5A6")
  }

  /** `getRegionColor`. The rainbow scheme's HSL colour is supplied by the caller. */
  function GetRegionColor(regionId: Option<int>, regionName: string, colorScheme: string,
                          rainbow: Option<int> -> RGB): RGB
  {
    if colorScheme == "anatomical" then AnatomicalColor(regionName)
    else if colorScheme == "rainbow" then rainbow(regionId)
    else if colorScheme == "functional" then FunctionalColor(regionName)
    else HexToRGB("#888888")
  }

  /** The two name-based cascades ignore letter case; the rainbow alone looks at the id, and an
      unknown scheme gives the grey `#888888` for every region. */
  lemma RegionColorProperties(regionId: Option<int>, regionName: string, colorScheme: string,
                              rainbow: Option<int> -> RGB, otherId: Option<int>, otherName: string)
    ensures colorScheme != "rainbow" ==>
      GetRegionColor(regionId, Lower(regionName), colorScheme, rainbow) == GetRegionColor(otherId, regionName, colorScheme, rainbow)
    ensures colorScheme !in {"anatomical", "rainbow", "functional"} ==>
      GetRegionColor(regionId, regionName, colorScheme, rainbow) == GetRegionColor(otherId, otherName, colorScheme, rainbow)
    ensures colorScheme !in {"anatomical", "rainbow", "functional"} ==>
      GetRegionColor(regionId, regionName, colorScheme, rainbow) == HexToRGB("#888888")
    ensures colorScheme == "rainbow" ==> GetRegionColor(regionId, regionName, colorScheme, rainbow) == rainbow(regionId)
    ensures colorScheme != "rainbow" ==> InUnitCube(GetRegionColor(regionId, regionName, colorScheme, rainbow))
  {
    LowerIdempotent(regionName);
  }

  /** The anatomical scheme tests the lower-cased name for the lobes in a fixed order: the first
      keyword present picks the colour, and a name with none of them gets the default grey. */
  lemma AnatomicalOrder(regionId: Option<int>, regionName: string, rainbow: Option<int> -> RGB)
    ensures var n, c := Lower(regionName), GetRegionColor(regionId, regionName, "anatomical", rainbow);
      && (Contains(n, "frontal") ==> c == HexToRGB("#FF6B6B"))
      && (!Contains(n, "frontal") && Contains(n, "parietal") ==> c == HexToRGB("#4ECDC4"))
      && (!Contains(n, "frontal") && !Contains(n, "parietal") && Contains(n, "temporal") ==> c == HexToRGB("#95E1D3"))
      && ((!Contains(n, "frontal") && !Contains(n, "parietal") && !Contains(n, "temporal")
           && Contains(n, "occipital")) ==> c == HexToRGB("#F38181"))
      && ((!Contains(n, "frontal") && !Contains(n, "parietal") && !Contains(n, "temporal")
           && !Contains(n, "occipital") && Contains(n, "cerebellum")) ==> c == HexToRGB("#FCE38A"))
      && ((!Contains(n, "frontal") && !Contains(n, "parietal") && !Contains(n, "temporal")
           && !Contains(n, "occipital") && !Contains(n, "cerebellum") && Contains(n, "cingul")) ==> c == HexToRGB("#AA96DA"))
      && ((!Contains(n, "frontal") && !Contains(n, "parietal") && !Contains(n, "temporal")
           && !Contains(n, "occipital") && !Contains(n, "cerebellum") && !Contains(n, "cingul")) ==> c == HexToRGB("#C9C9C9"))
  {
  }

  /** The functional scheme tests the lower-cased name for pairs of keywords in a fixed order:
      motor or precentral, sensory or postcentral, visual or occipital, auditory or temporal, and
      otherwise the association grey. */
  lemma FunctionalOrder(regionId: Option<int>, regionName: string, rainbow: Option<int> -> RGB)
    ensures var n, c := Lower(regionName), GetRegionColor(regionId, regionName, "functional", rainbow);
      var motor, sensory := Contains(n, "motor") || Contains(n, "precentral"), Contains(n, "sensory") || Contains(n, "postcentral");
      var visual, auditory := Contains(n, "visual") || Contains(n, "occipital"), Contains(n, "auditory") || Contains(n, "temporal");
      && (motor ==> c == HexToRGB("#E74C3C"))
      && (!motor && sensory ==> c == HexToRGB("#3498DB"))
      && (!motor && !sensory && visual ==> c == HexToRGB("#9B59B6"))
      && (!motor && !sensory && !visual && auditory ==> c == HexToRGB("#F39C12"))
      && (!motor && !sensory && !visual && !auditory ==> c == HexToRGB("#95A5A6"))
  {
  }

  // ---------------------------------------------------------------------------------------
  // The vertex-colour effect

  /** Each channel multiplied, with no cap. */
  function Scale(c: RGB, m: real): RGB {
    RGB(c.r * m, c.g * m, c.b * m)
  }

  function ViewerMultiplier(d: ViewerRegion, selected: Option<string>, hovered: Option<string>): real {
    if selected == Some(d.name) then 1.5 else if hovered == Some(d.name) then 1.2 else 1.0
  }

  /** The colour the effect writes for vertex `i`. */
  function ViewerVertexColor(atlas: ViewerAtlas, colorScheme: string, rainbow: Option<int> -> RGB,
                             selected: Option<string>, hovered: Option<string>, i: int): RGB
  {
    if Some(i) in atlas then
      var d := atlas[Some(i)];
      Scale(GetRegionColor(d.id, d.name, colorScheme, rainbow), ViewerMultiplier(d, selected, hovered))
    else DefaultColor
  }

  function ViewerColorBuffer(count: nat, atlas: ViewerAtlas, colorScheme: string, rainbow: Option<int> -> RGB,
                             selected: Option<string>, hovered: Option<string>): (buf: seq<real>)
    ensures |buf| == 3 * count
  {
    if count == 0 then []
    else
      var c := ViewerVertexColor(atlas, colorScheme, rainbow, selected, hovered, count - 1);
      ViewerColorBuffer(count - 1, atlas, colorScheme, rainbow, selected, hovered) + [c.r, c.g, c.b]
  }

  method ViewerChannels(atlas: ViewerAtlas, colorScheme: string, rainbow: Option<int> -> RGB,
                        selected: Option<string>, hovered: Option<string>, i: int)
    returns (r: real, g: real, b: real)
    ensures RGB(r, g, b) == ViewerVertexColor(atlas, colorScheme, rainbow, selected, hovered, i)
  {
    if Some(i) in atlas {
      var regionData := atlas[Some(i)];
      var color := GetRegionColor(regionData.id, regionData.name, colorScheme, rainbow);
      var isSelected := selected == Some(regionData.name);
      var isHovered := hovered == Some(regionData.name);
      var multiplier := if isSelected then 1.5 else if isHovered then 1.2 else 1.0;
      r, g, b := color.r * multiplier, color.g * multiplier, color.b * multiplier;
    } else {
      r, g, b := 0.7, 0.7, 0.7;
    }
  }

  /** The colour effect: the buffer it installs, or `None` when it returns early because the
      atlas is not loaded or there is no mesh (`positionCount` is `None`). */
  method ApplyViewerColors(atlasData: Option<ViewerAtlas>, positionCount: Option<nat>, colorScheme: string,
                           rainbow: Option<int> -> RGB, selected: Option<string>, hovered: Option<string>)
    returns (colors: Option<seq<real>>)
    ensures colors.None? <==> atlasData.None? || positionCount.None?
    ensures colors.Some? ==> colors.value == ViewerColorBuffer(positionCount.value, atlasData.value, colorScheme, rainbow, selected, hovered)
  {
    if atlasData.None? || positionCount.None? {
      return None;
    }
    var buffer := new real[positionCount.value * 3];
    for i := 0 to positionCount.value
      invariant buffer[..3 * i] == ViewerColorBuffer(i, atlasData.value, colorScheme, rainbow, selected, hovered)
    {
      var r, g, b := ViewerChannels(atlasData.value, colorScheme, rainbow, selected, hovered, i);
      ghost var done := buffer[..3 * i];
      buffer[i * 3] := r;
      buffer[i * 3 + 1] := g;
      buffer[i * 3 + 2] := b;
      assert buffer[..3 * i] == done;
      assert buffer[..3 * (i + 1)] == done + [r, g, b];
    }
    assert buffer[..] == buffer[..3 * positionCount.value];
    return Some(buffer[..]);
  }

  /** Channel `k` of vertex `i` sits at position `3 * i + k`. */
  lemma {:induction false} ViewerBufferLayout(count: nat, atlas: ViewerAtlas, colorScheme: string, rainbow: Option<int> -> RGB,
                                              selected: Option<string>, hovered: Option<string>, i: nat, k: nat)
    requires i < count && k < 3
    ensures ViewerColorBuffer(count, atlas, colorScheme, rainbow, selected, hovered)[3 * i + k]
         == Channel(ViewerVertexColor(atlas, colorScheme, rainbow, selected, hovered, i), k)
    decreases count
  {
    if i < count - 1 {
      ViewerBufferLayout(count - 1, atlas, colorScheme, rainbow, selected, hovered, i, k);
    }
  }

  /** Without the cap of `applyAtlasColors` a selected frontal vertex is written with a red
      channel of 1.5, while every channel `applyAtlasColors` writes is at most 1. */
  lemma ViewerChannelCanExceedOne(rainbow: Option<int> -> RGB)
    ensures var atlas := map[Some(0) := ViewerRegion(Some(1), "Frontal_Sup_L")];
      ViewerColorBuffer(1, atlas, "anatomical", rainbow, Some("Frontal_Sup_L"), None)[0] == 1.5
  {
    var atlas := map[Some(0) := ViewerRegion(Some(1), "Frontal_Sup_L")];
    assert Lower("Frontal_Sup_L") == "frontal_sup_l";
    assert "frontal" <= "frontal_sup_l";
    HexRoundTrip(255, 107, 107);
    assert FormatHex(255, 107, 107) == "#FF6B6B";
    ViewerBufferLayout(1, atlas, "anatomical", rainbow, Some("Frontal_Sup_L"), None, 0, 0);
  }

  /** Unlabelled vertices are grey, and highlighting touches only the selected and hovered
      regions, as in `applyAtlasColors`. */
  lemma ViewerHighlightIsLocal(atlas: ViewerAtlas, colorScheme: string, rainbow: Option<int> -> RGB,
                               selected: Option<string>, hovered: Option<string>, i: int)
    ensures Some(i) !in atlas ==> ViewerVertexColor(atlas, colorScheme, rainbow, selected, hovered, i) == DefaultColor
    ensures Some(i) in atlas && Some(atlas[Some(i)].name) != selected && Some(atlas[Some(i)].name) != hovered ==>
      ViewerVertexColor(atlas, colorScheme, rainbow, selected, hovered, i) == ViewerVertexColor(atlas, colorScheme, rainbow, None, None, i)
  {
  }
}
