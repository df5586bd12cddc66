# Brain atlas viewer: a verified model of its atlas pipeline and region logic

The application is a React/three.js brain explorer. It has a single core: the **vertex-to-region atlas pipeline** in `src/utils/atlasParser.js`. That file has four parts:

- a line-oriented parser from `vertex regionId [name…]` text to a vertex→label map and per-name statistics;
- a face resolver that picks a triangle's region by majority vote among its three labelled corners;
- a per-vertex colour-buffer builder with highlight multipliers and a cap at 1.0;
- colour helpers: a strict `#rrggbb` parser, a colour map built from a region table, and fixed colour schemes.

Around this core the project models the logic that sits in the other files:

- the older copy of the pipeline in `src/AdvancedBrainViewer.jsx`;
- the model choice, mesh-name matching and colour loop of `src/components/BrainBrowser.jsx`;
- the mesh→region mapping of `src/components/GltfBrainModel.jsx`;
- the camera placement, selection state and list filter of `src/EnhancedApp.jsx`;
- the lookup, search and flatten helpers over the three static region tables: `src/data/brainStructure.js`, `src/data/desikanKillianyRegions.js` and `src/data/brainRegions.js`.

## Layout

One Dafny module per source file. Three small modules give the JavaScript built-ins the code relies on:

- `JsText`: `trim`, `split(/\s+/)`, `split('.')`, `join`, ASCII `toLowerCase`, `includes`, `replace` and number formatting;
- `JsArray`: `filter`, `find`, `findIndex`, `some`, `map` and `[...new Set(…)]`;
- `Wrappers`: `Option`, which stands for `undefined`/`null`/`NaN`.

`MajorityVote` holds the vote of `getRegionFromFace`.

### Modelling choices

- **Integer parsing.** `parseInt` is a parameter of type `string -> Option<int>`; `None` is `NaN`. The parsers are proved for every such function.
- **Colours.** Colours are triples of `real`. Float32 rounding is not modelled.
- **Object keys.** The keys of JavaScript objects are strings. The colour map of `createColorMapFromRegions` stores an id under its decimal text, so a name and an id share one key space as in the source.
- **Static tables.**
  - Each table is a constant built from column sequences in source order.
  - Free-text columns that no helper reads (clinical notes, connections, Brodmann areas, positions and sizes) are omitted.
  - The search text (descriptions, functions, keywords) is kept as a parameter wherever a property does not depend on it.
- **Imperative code.** Code that works by mutation or loops is a `method` proved equal to a specification function. This covers the `forEach` parsers, the count-then-scan vote, the `Float32Array` loops, `getRegionById`'s loop, `getAllRegionsAndParts` and `searchBrain`.
  - The specification function's properties are lemmas.
  - The React state of `EnhancedApp` is the class `EnhancedApp.AppState`.
- **Behaviour worth noting.**
  - `parseAALAtlas` stores any integer vertex index `parseInt` yields, negative ones included (`src/utils/atlasParser.js:26-38`).
  - `src/utils/atlasParser.js:210-212` and `src/components/BrainBrowser.jsx:362-364` cap each channel at 1.0. The older copy in `src/AdvancedBrainViewer.jsx:84-86` writes `color·multiplier` unclamped, so a highlighted channel can exceed 1.0 (`AdvancedBrainViewer.ViewerChannelCanExceedOne`).
  - That copy also stores comment lines (`src/AdvancedBrainViewer.jsx:20-29`, `AdvancedBrainViewer.CommentLineIsStored`).
  - The vote's tie-break is the insertion order of `Object.entries` over the counts (`src/utils/atlasParser.js:158-163`). For names that are not integer-like, that is the order of first appearance among the labelled corners (`MajorityVote.KeyOrder`, `MajorityVote.ScanPicksWinner`).

## Model

| member | source | states |
|---|---|---|
| AtlasParser.KeptLine | src/utils/atlasParser.js:17-31 | a line yields a record only if, trimmed, it is neither blank nor a `#` comment, has at least two whitespace tokens, and its first two tokens parse to the record's vertex index and id |
| AtlasParser.DroppedLine | src/utils/atlasParser.js:17-31 | a line is ignored only when, trimmed, it is blank or a comment, has fewer than two tokens, or one of its first two tokens does not parse |
| AtlasParser.ParsedNameIsRestOfLine | src/utils/atlasParser.js:29 | the stored name splits back into tokens 3..n of the line, or is `Region_<id>` when the line has only two tokens |
| AtlasParser.ParseLine | src/utils/atlasParser.js:17-31 | the record one `forEach` callback stores, or none; its contract is carried by `KeptLine`, `DroppedLine` and `ParsedNameIsRestOfLine` |
| AtlasParser.AbsorbLine | src/utils/atlasParser.js:16-53 | one `forEach` callback: the map and stats it leaves are one fold step over the line's parsed record |
| AtlasParser.AbsorbLines | src/utils/atlasParser.js:16-54 | the `forEach` over the lines builds exactly the left fold of their parsed records (loop with invariants) |
| AtlasParser.ParseAALAtlas | src/utils/atlasParser.js:11-64 | `parseAALAtlas` returns the fold of the trimmed text's lines, with `totalVertices`/`totalRegions` the sizes of the map and of the stats |
| AtlasParser.FoldStep | src/utils/atlasParser.js:16 | the fold over one more line is one more step of the fold |
| AtlasParser.NoneChangesNothing | src/utils/atlasParser.js:20-31 | an ignored record anywhere in the sequence changes neither the map nor the stats |
| AtlasParser.IgnoredLineChangesNothing | src/utils/atlasParser.js:20-31 | removing an ignored line from the text leaves the parsed map and stats unchanged |
| AtlasParser.KeysAreVertexIndices | src/utils/atlasParser.js:32-38 | every stored record's `vertexIndex` equals its key |
| AtlasParser.LastWriteWins | src/utils/atlasParser.js:38 | a vertex is a key iff some valid line names it, and its record is the one from the last such line |
| AtlasParser.StatsCountLines | src/utils/atlasParser.js:41-49 | a name has stats iff some valid line carries it, and its `vertexCount` counts every such line, repeated vertices included |
| AtlasParser.StatsIdFromFirstLine | src/utils/atlasParser.js:41-48 | a name's stats `id` is the id of the first valid line with that name |
| AtlasParser.StatsRangeBrackets | src/utils/atlasParser.js:45-51 | `minVertex <= maxVertex`, both bracket every index seen for the name, and both are attained |
| AtlasParser.CountsAddUp | src/utils/atlasParser.js:49 | the vertex counts over all names sum to the number of valid lines |
| AtlasParser.MapSizeAtMostValidLines | src/utils/atlasParser.js:38 | the map has at most one key per valid line |
| AtlasParser.TotalVerticesAtMostSumOfCounts | src/utils/atlasParser.js:58-63 | `totalVertices` is the map size, `totalRegions` the number of stat keys, and `totalVertices` is at most the sum of the vertex counts |
| AtlasParser.ParseFreeSurferAnnotation | src/utils/atlasParser.js:70-80 | the stub returns empty maps and zero totals for any buffer |
| AtlasParser.FreeSurferStubIsEmptyParse | src/utils/atlasParser.js:70-80 | the stub's result is what `parseAALAtlas` gives on text with no valid line |
| AtlasParser.LabelLineKept | src/utils/atlasParser.js:91-98 | a label line is kept iff, trimmed, it is neither blank nor a comment and has at least two tokens; no `NaN` check |
| AtlasParser.LabelLineFields | src/utils/atlasParser.js:99-107 | a kept label has token 1 as name, `parseInt` of token 2 (possibly `NaN`) as id, and token 3 or `#808080` as colour |
| AtlasParser.ParseLabelLine | src/utils/atlasParser.js:91-107 | the label one line contributes, or none; its contract is carried by `LabelLineKept` and `LabelLineFields` |
| AtlasParser.AbsorbLabelLine | src/utils/atlasParser.js:91-108 | one callback of `parseLabelFile` is one step of the label fold |
| AtlasParser.AbsorbLabelLines | src/utils/atlasParser.js:91-109 | the `forEach` over the label lines builds the label fold (loop with invariants) |
| AtlasParser.ParseLabelFile | src/utils/atlasParser.js:87-112 | `parseLabelFile` returns the label fold over the trimmed text's lines |
| AtlasParser.LabelFoldStep | src/utils/atlasParser.js:91 | the label fold over one more line is one more step |
| AtlasParser.LabelsLastWriteWins | src/utils/atlasParser.js:103-107 | a parsed id (`NaN` included) is a key iff some kept line has it, holding the last such line's label |
| AtlasParser.FaceVote | src/utils/atlasParser.js:119-165 | `null` exactly when geometry, atlas or index is missing or no corner of face `3f..3f+2` is labelled; otherwise one of the corners' records, the unique vote winner |
| AtlasParser.FaceMajority | src/utils/atlasParser.js:140-165 | a name carried by two labelled corners is the face's name, whatever the third corner holds |
| AtlasParser.GetRegionFromFace | src/utils/atlasParser.js:118-166 | the method as written (corner lookups, filter, count, scan) returns the vote-winner function's result |
| AtlasParser.RegionFromFace | src/utils/atlasParser.js:118-166 | the value `getRegionFromFace` returns; its contract is carried by `FaceVote` and `FaceMajority`, and the method by `GetRegionFromFace` |
| MajorityVote.WinnerUnique | src/utils/atlasParser.js:154-165 | at most one record wins: highest count, and strictly higher than every earlier record's |
| MajorityVote.WinnerIndex | src/utils/atlasParser.js:154-165 | a non-empty list of records always has a winner |
| MajorityVote.CountKeys | src/utils/atlasParser.js:148-152 | the `forEach` filling `regionCounts` counts each name exactly (loop with invariants) |
| MajorityVote.KeyOrder | src/utils/atlasParser.js:158 | `Object.entries(regionCounts)` lists the names in order of first appearance |
| MajorityVote.PickMostCommon | src/utils/atlasParser.js:155-165 | the scan with `count > maxCount` and `regions.find` returns the winning record (loop with invariants) |
| MajorityVote.ScanPicksWinner | src/utils/atlasParser.js:158-163 | the name left leading by the scan is found by `find`, and the record found is the winner |
| MajorityVote.MostCommon | src/utils/atlasParser.js:147-165 | counting then scanning returns the record at the winner index |
| MajorityVote.StrictMajorityWins | src/utils/atlasParser.js:140-165 | a name carried by more than half the records wins |
| AtlasParser.HexDigits | src/utils/atlasParser.js:243 | the regex accepts exactly six hex digits, with or without one leading `#` |
| AtlasParser.HexToRGB | src/utils/atlasParser.js:242-249 | every channel lies in [0, 1], and a rejected string gives grey (0.5, 0.5, 0.5) |
| AtlasParser.GreyOnlyWhenRejected | src/utils/atlasParser.js:243-248 | the result is the fallback grey iff the regex rejects the string |
| AtlasParser.HexRoundTrip | src/utils/atlasParser.js:243-247 | formatting bytes as `#RRGGBB`, or as bare `RRGGBB`, and parsing back gives byte/255 per channel |
| AtlasParser.HexToRGBIgnoresCase | src/utils/atlasParser.js:243 | the `/i` flag: lower-casing the string never changes the colour |
| AtlasParser.CreateColorMapFromRegions | src/utils/atlasParser.js:226-237 | the `forEach` writing name and truthy-id entries builds the colour-map fold (loop with invariants) |
| AtlasParser.ColorMapOf | src/utils/atlasParser.js:226-237 | the colour map after the regions, in order; its contract is carried by `ColorMapHasKey`, `ColorMapLastWriter` and `ColorMapInUnitCube` |
| AtlasParser.ColorMapHasKey | src/utils/atlasParser.js:229-234 | a key is in the map iff some region writes it: its name, or the decimal text of a non-zero id |
| AtlasParser.ColorMapLastWriter | src/utils/atlasParser.js:229-234 | a key holds the colour of the last region writing it; id 0 writes nothing |
| AtlasParser.ColorMapInUnitCube | src/utils/atlasParser.js:230-232 | every colour in the map lies in [0, 1] |
| AtlasParser.NameFindsOwnColor | src/utils/atlasParser.js:229-234 | with distinct names that clash with no id text, each region's name maps to its own colour |
| AtlasParser.ApplyAtlasColors | src/utils/atlasParser.js:171-213 | no buffer when geometry, atlas or positions are missing; otherwise the buffer of 3·count channels, vertex by vertex (loop with invariants) |
| AtlasParser.VertexChannels | src/utils/atlasParser.js:189-212 | one loop body: name before id, 1.5 selected over 1.2 hovered over 1.0, each channel `min(c·m, 1)` |
| AtlasParser.VertexColor | src/utils/atlasParser.js:186-212 | the colour written for one vertex; its contract is carried by `VertexChannels`, `VertexColorCapped`, `VertexColorNonNegative`, `UnlabelledVertexIsGrey`, `HighlightIsLocal`, `SelectionBeatsHover` and `HighlightNeverDarkens` |
| AtlasParser.ColorBuffer | src/utils/atlasParser.js:183 | the buffer has length 3·count |
| AtlasParser.ColorBufferLayout | src/utils/atlasParser.js:210-212 | channel k of vertex i sits at index 3i + k |
| AtlasParser.VertexColorCapped | src/utils/atlasParser.js:210-212 | every channel of a vertex colour is at most 1.0 |
| AtlasParser.ColorBufferCapped | src/utils/atlasParser.js:188-213 | every entry of the buffer is at most 1.0 |
| AtlasParser.VertexColorNonNegative | src/utils/atlasParser.js:186-212 | with a non-negative colour map, every channel of a vertex colour is at least 0 |
| AtlasParser.ColorBufferNonNegative | src/utils/atlasParser.js:188-213 | with a non-negative colour map, every buffer entry is at least 0 |
| AtlasParser.ColorMapOfIsNonNegative | src/utils/atlasParser.js:226-237 | a colour map built by `createColorMapFromRegions` meets that condition |
| AtlasParser.UnlabelledVertexIsGrey | src/utils/atlasParser.js:186-191 | an unlabelled vertex is (0.7, 0.7, 0.7) whatever the selection and hover |
| AtlasParser.HighlightIsLocal | src/utils/atlasParser.js:202-207 | a vertex whose name is neither selected nor hovered has its unhighlighted colour |
| AtlasParser.SelectionBeatsHover | src/utils/atlasParser.js:203-206 | for a selected vertex the hover makes no difference |
| AtlasParser.HighlightNeverDarkens | src/utils/atlasParser.js:202-212 | with non-negative colours, highlighting never lowers a channel |
| AtlasParser.GenerateColorScheme | src/utils/atlasParser.js:254-280 | an unknown scheme name gives the anatomical scheme |
| AtlasParser.SchemeColorsAreHex | src/utils/atlasParser.js:255-277 | every colour of every scheme is accepted by `hexToRGB` |
| AtlasParser.SchemesCoverAalTable | src/utils/atlasParser.js:255-277 | the anatomical scheme has a colour for exactly the lobes `getAllLobes` lists for the AAL table, and the hemisphere scheme for exactly its hemispheres |
| BrainRegions.AalLobesListed | src/data/brainRegions.js:625-627 | over the AAL table `getAllLobes` lists exactly Frontal, Parietal, Temporal, Occipital, Limbic, Subcortical and Cerebellum |
| BrainRegions.AalHemispheresListed | src/data/brainRegions.js:629-631 | over the AAL table `getAllHemispheres` lists exactly Left and Right |
| AtlasParser.SchemeIsNonEmpty | src/utils/atlasParser.js:279 | every scheme returned is non-empty |
| AdvancedBrainViewer.ViewerLineKept | src/AdvancedBrainViewer.jsx:19-21 | a line is stored iff it has at least two tokens once trimmed: no comment or `NaN` filter |
| AdvancedBrainViewer.AbsorbViewerLine | src/AdvancedBrainViewer.jsx:19-30 | one callback is one step of this parser's fold (a `set` under the parsed key) |
| AdvancedBrainViewer.AbsorbViewerLines | src/AdvancedBrainViewer.jsx:19-31 | the `forEach` builds the fold of the parsed lines (loop with invariants) |
| AdvancedBrainViewer.ParseAALAtlas | src/AdvancedBrainViewer.jsx:15-34 | this file's `parseAALAtlas` returns the fold over the trimmed text's lines, keyed by possibly-`NaN` vertex |
| AdvancedBrainViewer.ParseViewerLine | src/AdvancedBrainViewer.jsx:20-29 | the entry one line contributes; its contract is carried by `ViewerLineKept` (stored iff two tokens) and `AgreesOnValidLine` (same fields as the newer parser) |
| AdvancedBrainViewer.ViewerFoldStep | src/AdvancedBrainViewer.jsx:19 | the fold over one more line is one more step |
| AdvancedBrainViewer.AgreesOnValidLine | src/AdvancedBrainViewer.jsx:20-29 | on a line the newer parser accepts, both parsers store the same vertex, id and name, `Region_<id>` included |
| AdvancedBrainViewer.CommentLineIsStored | src/AdvancedBrainViewer.jsx:20-29 | a `#` comment of two or more tokens is dropped by the newer parser but stored here, under the `NaN` key when its first token does not parse |
| AdvancedBrainViewer.FoldsAgree | src/AdvancedBrainViewer.jsx:19-31 | on records the newer parser accepts, both folds hold the same vertices with the same ids and names |
| AdvancedBrainViewer.ParsersAgree | src/AdvancedBrainViewer.jsx:15-34 | on text whose every line the newer parser accepts, both parsers build the same map |
| AdvancedBrainViewer.FirstPresent | src/AdvancedBrainViewer.jsx:120 | `a \|\| b \|\| c`: the first present corner, `None` iff all are missing |
| AdvancedBrainViewer.ClickedRegion | src/AdvancedBrainViewer.jsx:100-125 | nothing while the atlas is unloaded; a `TypeError` exactly when the atlas is loaded and the geometry has no index buffer; otherwise nothing iff no corner is labelled, else the first labelled corner's record |
| AdvancedBrainViewer.ClickedRegionByVote | src/AdvancedBrainViewer.jsx:100-124 | the click the comment at line 119 describes: the same throw and the same silence without an atlas, and any region reported is one of the face's corners |
| AdvancedBrainViewer.MissingIndexThrowsHere | src/AdvancedBrainViewer.jsx:107-111 | on a geometry without an index buffer `getRegionFromFace` returns `null`, while this click and this move throw |
| AdvancedBrainViewer.ClickIsNotMajority | src/AdvancedBrainViewer.jsx:119-120 | corners labelled A, B, B, read through an index buffer: the click reports A while the majority is B |
| AdvancedBrainViewer.VoteClickProperties | src/AdvancedBrainViewer.jsx:100-124 | the corrected click by vote throws exactly when the click does, otherwise answers exactly when the click does, and a name on two corners wins |
| AdvancedBrainViewer.HoverAfterMove | src/AdvancedBrainViewer.jsx:127-141 | unchanged while the atlas is unloaded or the face index is undefined; a `TypeError` exactly when, past those checks, the geometry has no index buffer; otherwise the first corner's record, possibly `undefined` |
| AdvancedBrainViewer.RegionColorProperties | src/AdvancedBrainViewer.jsx:183-226 | outside the rainbow scheme the colour ignores the id and the name's case and lies in [0, 1]; the rainbow colour is the HSL one for the id; an unknown scheme gives `#888888` to every region |
| AdvancedBrainViewer.AnatomicalOrder | src/AdvancedBrainViewer.jsx:184-203 | in the anatomical scheme, the first of frontal, parietal, temporal, occipital, cerebellum, cingul in the lower-cased name picks `#FF6B6B`, `#4ECDC4`, `#95E1D3`, `#F38181`, `#FCE38A` or `#AA96DA`; none of them gives `#C9C9C9` |
| AdvancedBrainViewer.FunctionalOrder | src/AdvancedBrainViewer.jsx:208-222 | in the functional scheme, the first pair hit of motor/precentral, sensory/postcentral, visual/occipital, auditory/temporal picks `#E74C3C`, `#3498DB`, `#9B59B6` or `#F39C12`; none gives `#95A5A6` |
| AdvancedBrainViewer.GetRegionColor | src/AdvancedBrainViewer.jsx:183-226 | `getRegionColor`'s dispatch on the scheme; its contract is carried by `AnatomicalOrder`, `FunctionalOrder` and `RegionColorProperties` |
| AdvancedBrainViewer.ViewerChannels | src/AdvancedBrainViewer.jsx:73-92 | one loop body: grey 0.7 when unlabelled, otherwise colour × multiplier (1.5 > 1.2 > 1.0) with no cap |
| AdvancedBrainViewer.ApplyViewerColors | src/AdvancedBrainViewer.jsx:64-93 | no buffer while the atlas or mesh is missing; otherwise the 3·count buffer vertex by vertex (loop with invariants) |
| AdvancedBrainViewer.ViewerColorBuffer | src/AdvancedBrainViewer.jsx:69 | the buffer has length 3·count |
| AdvancedBrainViewer.ViewerBufferLayout | src/AdvancedBrainViewer.jsx:84-91 | channel k of vertex i sits at index 3i + k |
| AdvancedBrainViewer.ViewerChannelCanExceedOne | src/AdvancedBrainViewer.jsx:82-86 | a selected frontal vertex gets a red channel above 1.0 |
| AdvancedBrainViewer.ViewerHighlightIsLocal | src/AdvancedBrainViewer.jsx:75-92 | unlabelled vertices are grey, and vertices neither selected nor hovered keep their scheme colour |
| BrainBrowser.GetModelComponent | src/components/BrainBrowser.jsx:478-504 | Simple when forced or the URL is falsy; GLB iff the last lower-cased extension is glb/gltf under `auto`, or the type is `glb`; Advanced likewise for obj; otherwise Simple |
| BrainBrowser.AutoUsesLastExtension | src/components/BrainBrowser.jsx:484-492 | for `stem.ext` the extension is `ext` lower-cased, whatever dots the stem holds |
| BrainBrowser.ExplicitTypeIgnoresUrl | src/components/BrainBrowser.jsx:494-503 | an explicit model type does not depend on which non-empty URL is given |
| BrainBrowser.MatchMeshKey | src/components/BrainBrowser.jsx:219-221 | the first key, in table order, whose lower-cased form with its first `_` removed is in the lower-cased mesh name; `None` iff no key is |
| BrainBrowser.MeshMatches | src/components/BrainBrowser.jsx:219-221 | the `find` callback: the key, lower-cased and without its first `_`, is in the lower-cased mesh name; its contract is carried by `MatchMeshKey` and `OnlyFirstUnderscoreRemoved` |
| BrainBrowser.OnlyFirstUnderscoreRemoved | src/components/BrainBrowser.jsx:220 | `replace('_', '')` drops only the first underscore, so a later one stays in the key |
| BrainBrowser.GlbClick | src/components/BrainBrowser.jsx:211-229 | a click reports the matched key with its id, or `Frontal_Sup_L`, id 1, when nothing matches |
| BrainBrowser.GlbPointerOver | src/components/BrainBrowser.jsx:231-243 | the hover becomes the matched region, or stays as it was when nothing matches |
| BrainBrowser.ClickFallbackIsFirstEntry | src/components/BrainBrowser.jsx:226-227 | the fallback is the first entry of `brainRegionsData`, with its id |
| BrainBrowser.BrowserChannels | src/components/BrainBrowser.jsx:344-364 | one loop body: grey unless the name is a table key, multiplier by name, each channel capped at 1.0 |
| BrainBrowser.BrowserVertexColor | src/components/BrainBrowser.jsx:344-364 | the colour written for one vertex; its contract is carried by `BrowserChannels`, `BrowserVertexColorBounds` and `UnknownNameIsGrey` |
| BrainBrowser.AdvancedModelColors | src/components/BrainBrowser.jsx:336-369 | no buffer while the model or atlas is missing; otherwise the 3·count buffer vertex by vertex (loop with invariants) |
| BrainBrowser.BrowserColorBuffer | src/components/BrainBrowser.jsx:341 | the buffer has length 3·count |
| BrainBrowser.BrowserBufferLayout | src/components/BrainBrowser.jsx:362-364 | channel k of vertex i sits at index 3i + k |
| BrainBrowser.BrowserVertexColorBounds | src/components/BrainBrowser.jsx:346-364 | every channel of a vertex colour lies in [0, 1] |
| BrainBrowser.BrowserBufferBounds | src/components/BrainBrowser.jsx:343-365 | every buffer entry lies in [0, 1] |
| BrainBrowser.UnknownNameIsGrey | src/components/BrainBrowser.jsx:349-353 | a labelled vertex whose name is not a table key is grey, brightened only by its multiplier |
| BrainBrowser.AdvancedClick | src/components/BrainBrowser.jsx:371-380 | a click reports a region iff the atlas is loaded, a callback exists and the face vote is non-null, and it reports that region |
| BrainBrowser.AdvancedPointerMove | src/components/BrainBrowser.jsx:382-388 | a move leaves the hover alone while the atlas is unloaded, otherwise overwrites it with the face vote, possibly null |
| BrainBrowser.MoveClearsWhereClickIsSilent | src/components/BrainBrowser.jsx:371-388 | over a face with no labelled corner a move clears the hover while a click reports nothing |
| GltfBrainModel.DisplayList | src/components/GltfBrainModel.jsx:110-112 | the parts of the selected main region when subparts are shown and one is selected, otherwise the main regions |
| GltfBrainModel.DisplayListKinds | src/components/GltfBrainModel.jsx:110-112 | in a well-formed table the display list holds only `REGION` entries or only parts of the selected region |
| GltfBrainModel.NameVariations | src/components/GltfBrainModel.jsx:120-127 | the six spellings of a node's name and id |
| GltfBrainModel.NamePhase | src/components/GltfBrainModel.jsx:115-134 | the first display node, in order, with a variation in the mesh name; `None` iff there is none |
| GltfBrainModel.StructureFind | src/components/GltfBrainModel.jsx:184-191 | the whole-structure search returns a node with that id, `None` iff no region or part has it |
| GltfBrainModel.Resolve | src/components/GltfBrainModel.jsx:180-191 | an id in the display list resolves there; otherwise in the whole structure; `None` iff neither has it |
| GltfBrainModel.PatternPhase | src/components/GltfBrainModel.jsx:177-193 | the first pattern, in table order, that is in the mesh name and resolves; `None` iff none does |
| GltfBrainModel.CeilDiv | src/components/GltfBrainModel.jsx:203 | `Math.ceil(n / k)`: the least c with c·k ≥ n |
| GltfBrainModel.Bucket | src/components/GltfBrainModel.jsx:196-205 | the index bucket is always a valid display position |
| GltfBrainModel.BucketNeedsNoClamp | src/components/GltfBrainModel.jsx:203-205 | for an existing mesh the `Math.min` clamp never fires |
| GltfBrainModel.BucketMonotone | src/components/GltfBrainModel.jsx:202-205 | with more than six meshes the bucket never decreases as the mesh index grows, so each node gets a consecutive run of meshes |
| GltfBrainModel.MapMeshToRegion | src/components/GltfBrainModel.jsx:106-210 | phase 1, else phase 2, else `display[index % k]` for ≤ 6 meshes or the ceil bucket, else `cerebrum` |
| GltfBrainModel.MappingIsTotal | src/components/GltfBrainModel.jsx:196-209 | the result is defined whenever the table has a `cerebrum` key |
| GltfBrainModel.StructureMappingIsTotal | src/components/GltfBrainModel.jsx:106-210 | over `brainStructure` and `namePatterns` the mapping never yields `undefined` |
| GltfBrainModel.FirstPatternHit | src/components/GltfBrainModel.jsx:177-178 | the first pattern contained in the mesh name, `None` iff none is |
| GltfBrainModel.UnshadowedPatternsReachTheirIds | src/components/GltfBrainModel.jsx:137-193 | in a pattern table where no pattern holds an earlier one for another id, a mesh named after a pattern reaches that pattern's id |
| GltfBrainModel.HitAfterMissedPrefix | src/components/GltfBrainModel.jsx:177-178 | a pattern in the mesh name after a prefix that misses it is the first hit |
| GltfBrainModel.TablePrefixes | src/components/GltfBrainModel.jsx:137-174 | the 27 entries, with `thalamus` at 13 and `hypothalamus` at 14 |
| GltfBrainModel.HypothalamusEntryIsShadowed | src/components/GltfBrainModel.jsx:154-155 | the `hypothalamus` entry follows `thalamus`, which it contains, so it is never the first hit |
| GltfBrainModel.HypothalamusMeshHitsThalamus | src/components/GltfBrainModel.jsx:154-156 | a mesh name holding "hypothalamus" and no earlier pattern reaches the thalamus id |
| GltfBrainModel.HypothalamusMissesEarlyPatterns | src/components/GltfBrainModel.jsx:139-153 | the mesh "hypothalamus" holds none of the thirteen patterns before `thalamus` |
| GltfBrainModel.CorrectedHypothalamusHit | src/components/GltfBrainModel.jsx:154-156 | in the corrected table such a mesh name reaches the hypothalamus entry |
| GltfBrainModel.CorrectedThalamusHit | src/components/GltfBrainModel.jsx:154-155 | in the corrected table a thalamus mesh still reaches thalamus, and only entries 13 and 14 moved |
| GltfBrainModel.CorrectedPairIsUnshadowed | src/components/GltfBrainModel.jsx:154-155 | in the corrected table the pair is unshadowed, and the meshes "hypothalamus" and "thalamus" reach their own ids |
| GltfBrainModel.DefaultHypothalamusMeshIsThalamus | src/components/GltfBrainModel.jsx:106-193 | in the default view over `brainStructure`, `mapMeshToRegion` sends a mesh named "Hypothalamus" to the limbic system's thalamus part, whatever its index and the number of meshes |
| GltfBrainModel.CorrectedDefaultMapping | src/components/GltfBrainModel.jsx:106-193 | with the corrected pattern order, the same mesh in the same view becomes the limbic system's hypothalamus part |
| GltfBrainModel.CorrectedDefaultKeepsThalamus | src/components/GltfBrainModel.jsx:106-193 | with the corrected pattern order, a mesh named "Thalamus" still becomes the thalamus part |
| GltfBrainModel.DefaultNamePhaseMisses | src/components/GltfBrainModel.jsx:110-134 | in the default view a mesh name without a `b` hits none of the six main regions in phase 1 |
| GltfBrainModel.DefaultResolvesLimbicPart | src/components/GltfBrainModel.jsx:180-191 | in the default view the ids `thalamus` and `hypothalamus` resolve, through the whole-structure search, to the limbic system's parts |
| GltfBrainModel.SubpartsHypothalamusMeshIsThalamus | src/components/GltfBrainModel.jsx:110-134 | with subparts shown and `limbic_system` selected, phase 1 already sends a mesh named "Hypothalamus" to the thalamus part, whatever the pattern table |
| EnhancedApp.GetRegionPosition | src/EnhancedApp.jsx:450-499 | the target point is (0.3x, 0.5y, 0.3z) of the position, the distance lies in [4, 6] and x in [-1.5, 1.5] |
| EnhancedApp.PositionIgnoresCase | src/EnhancedApp.jsx:451-452 | only the lower-cased lobe and hemisphere matter |
| EnhancedApp.HemispheresMirror | src/EnhancedApp.jsx:455 | `Left` and `RIGHT` give mirrored positions (x = -1.5 and 1.5) with the same y, z and distance; a hemisphere that is neither, once lower-cased, gives x = 0 |
| EnhancedApp.UnknownLobeIsCentred | src/EnhancedApp.jsx:489-492 | a lobe not in the switch gives y = z = 0 and distance 5 |
| EnhancedApp.KnownLobesAreDistinguished | src/EnhancedApp.jsx:462-492 | in the same hemisphere, a region in one of the six listed lobes is placed differently from a region in any other lobe |
| EnhancedApp.DkLobesAreKnown | src/EnhancedApp.jsx:462-488 | every Desikan-Killiany lobe is one the switch lists |
| EnhancedApp.SelectionOf | src/EnhancedApp.jsx:171-178 | the panel's click hands on `name \|\| fullName`, the id and the whole record |
| EnhancedApp.ChosenItemIsHighlighted | src/EnhancedApp.jsx:171-178 | an item chosen in the list is then shown as selected |
| EnhancedApp.HighlightByName | src/EnhancedApp.jsx:263-265 | nothing is selected without a selection; otherwise an item is selected iff the name is its key (`name` or `region_<id>`) or its `fullName` |
| EnhancedApp.Pipeline | src/EnhancedApp.jsx:139-163 | the search stage, then exact lobe unless `all`, then case-insensitive hemisphere unless `all`: an order-preserving subsequence holding exactly the rows passing each active stage |
| EnhancedApp.PipelineIsOneFilter | src/EnhancedApp.jsx:153-162 | the two filters are one filter by both tests |
| EnhancedApp.NoFilterListsAll | src/EnhancedApp.jsx:139-162 | a blank query with both filters at `all` lists every region |
| EnhancedApp.HemisphereOnly | src/EnhancedApp.jsx:158-162 | a hemisphere filter alone is one filter of the search stage |
| EnhancedApp.DkListingMembership | src/EnhancedApp.jsx:139-163 | a Desikan-Killiany region is listed iff it matches the query (or the query is blank), has the lobe unless `all` and the hemisphere unless `all` |
| EnhancedApp.AalListingMembership | src/EnhancedApp.jsx:139-163 | the same for the AAL table |
| EnhancedApp.DkHemisphereIsByHemisphere | src/EnhancedApp.jsx:139-163 | with no query and every lobe, picking a hemisphere lists what `getRegionsByHemisphere` returns |
| EnhancedApp.DkHemisphereListing | src/EnhancedApp.jsx:139-163 | picking left or right, in any case, lists exactly that half of the Desikan-Killiany table, 34 regions |
| EnhancedApp.FilteredRegions | src/EnhancedApp.jsx:139-163 | the list shown for the atlas chosen, before the sort; its contract is carried by `Pipeline`, `DkListingMembership` and `AalListingMembership` |
| EnhancedApp.AppState.constructor | src/EnhancedApp.jsx:412-419 | initially nothing is selected, the trigger is 0, the atlas is Desikan-Killiany and there is no target |
| EnhancedApp.AppState.HandleRegionClick | src/EnhancedApp.jsx:423-431 | the selection is always replaced; the target moves to the region's position only when `fullData` is present |
| EnhancedApp.AppState.HandleClearSelection | src/EnhancedApp.jsx:433-436 | no selection and no target; trigger and atlas unchanged |
| EnhancedApp.AppState.HandleResetView | src/EnhancedApp.jsx:438-441 | the trigger counts up by one and the target is dropped; the selection stays |
| EnhancedApp.AppState.HandleAtlasChange | src/EnhancedApp.jsx:443-447 | the new atlas, with no selection and no target |
| EnhancedApp.ChooseListedRegion | src/EnhancedApp.jsx:171-178 | choosing an item selects it and points the camera at its position |
| BrainStructure.Lookup | src/data/brainStructure.js:520-521 | `brainStructure[key]`: defined iff the key exists, and then the first entry's value |
| BrainStructure.LookupFindsEntry | src/data/brainStructure.js:17-506 | with distinct keys, an entry's key finds that entry's value |
| BrainStructure.GetMainRegions | src/data/brainStructure.js:511-513 | an order-preserving subsequence of the values, holding exactly those of type `REGION` |
| BrainStructure.MainRegionsAreAll | src/data/brainStructure.js:7 | over the table, `getMainRegions` returns all six entries |
| BrainStructure.GetParts | src/data/brainStructure.js:540-542 | the region's parts, or `[]` for an unknown id or a region without parts |
| BrainStructure.PartsBelongToParent | src/data/brainStructure.js:540-542 | in a well-formed table every part returned has type `PART` and names its region in `partOf` |
| BrainStructure.FindPart | src/data/brainStructure.js:525-532 | the first region, in order, with a part of that id gives that part tagged with the region id; `None` iff no region has one |
| BrainStructure.FindPartFirst | src/data/brainStructure.js:525-532 | the part found is the first with that id in region order, then part order |
| BrainStructure.RegionById | src/data/brainStructure.js:518-535 | a top-level key wins; otherwise the part search; null iff neither finds the id |
| BrainStructure.GetRegionById | src/data/brainStructure.js:518-535 | the loop over the regions as written returns that result (loop with invariants) |
| BrainStructure.TagParts | src/data/brainStructure.js:553-557 | each part is copied with `parentRegion`/`parentName` set to its region's id and name |
| BrainStructure.FlattenLength | src/data/brainStructure.js:547-562 | the listing has one element per region plus one per part |
| BrainStructure.FlattenLayout | src/data/brainStructure.js:550-559 | each region is immediately followed by its tagged parts, after the blocks of the regions before it |
| BrainStructure.GetAllRegionsAndParts | src/data/brainStructure.js:547-562 | the `forEach` with `push` builds the flattened listing (loop with invariants) |
| BrainStructure.ListingSize | src/data/brainStructure.js:547-562 | over the table the listing has 29 elements: 6 regions and 23 parts |
| BrainStructure.SearchBrain | src/data/brainStructure.js:567-595 | regions matched on name or description and tagged parts matched on name, description or functions, each in data order (loops with invariants) |
| BrainStructure.SearchRegion | src/data/brainStructure.js:571-591 | one outer iteration extends both result lists by region i's matches |
| BrainStructure.SearchRegionParts | src/data/brainStructure.js:579-591 | the inner loop appends the region's matching tagged parts, whether or not the region matched |
| BrainStructure.MatchingParts | src/data/brainStructure.js:580-590 | a region's matching parts, tagged, in order (loop with invariants) |
| BrainStructure.SearchRegionsFollowListing | src/data/brainStructure.js:567-595 | the regions found are the matching regions of the flattened listing, in the same order |
| BrainStructure.SearchPartsFollowListing | src/data/brainStructure.js:567-595 | the parts found are the matching parts of the flattened listing, in the same order |
| BrainStructure.EmptySearchFindsAll | src/data/brainStructure.js:568-583 | an empty query finds every region and every part |
| BrainStructure.StructureShape | src/data/brainStructure.js:17-506 | six entries, each keyed by its own id, all of type `REGION` |
| BrainStructure.StructurePartsWellFormed | src/data/brainStructure.js:31-503 | every part has type `PART` and `partOf` equal to its region's name |
| BrainStructure.StructurePartCount | src/data/brainStructure.js:31-503 | the table holds 23 parts |
| DesikanKilliany.HalvesSize | src/data/desikanKillianyRegions.js:3 | each half has 34 entries, whatever its text columns |
| DesikanKilliany.TableIds | src/data/desikanKillianyRegions.js:8-1187 | the 68 ids are 1 to 68, each once |
| DesikanKilliany.GetRegionById | src/data/desikanKillianyRegions.js:1190-1192 | the first entry with strictly equal id; `undefined` iff no entry has it |
| DesikanKilliany.FindsEachEntry | src/data/desikanKillianyRegions.js:1190-1192 | with distinct ids, an entry's own id finds that entry |
| DesikanKilliany.RegionByIdFindsExactlyTheTable | src/data/desikanKillianyRegions.js:1190-1192 | over the table, an entry is found iff 1 ≤ id ≤ 68, and each entry by its own id |
| DesikanKilliany.GetRegionsByLobe | src/data/desikanKillianyRegions.js:1194-1198 | an order-preserving subsequence holding exactly the entries whose lobe equals the argument after lower-casing both |
| DesikanKilliany.GetRegionsByHemisphere | src/data/desikanKillianyRegions.js:1200-1204 | the same for the hemisphere |
| DesikanKilliany.LobeAndHemisphereIgnoreCase | src/data/desikanKillianyRegions.js:1194-1204 | the case of the argument never matters |
| DesikanKilliany.LeftHemisphereIsLeftHalf | src/data/desikanKillianyRegions.js:1200-1204 | asking for `left`, in any case, gives the 34 left entries in order |
| DesikanKilliany.RightHemisphereIsRightHalf | src/data/desikanKillianyRegions.js:1200-1204 | asking for `right` gives the 34 right entries in order |
| DesikanKilliany.SearchRegions | src/data/desikanKillianyRegions.js:1206-1213 | an order-preserving subsequence holding exactly the entries whose name, full name or a function contains the lower-cased term |
| DesikanKilliany.EmptySearchReturnsAll | src/data/desikanKillianyRegions.js:1206-1213 | an empty term returns every entry |
| DesikanKilliany.SearchIgnoresCase | src/data/desikanKillianyRegions.js:1207 | the term's case never matters |
| DesikanKilliany.RegionColorsLastWriteWins | src/data/desikanKillianyRegions.js:1215-1220 | a name is a key iff some entry has it, with the colour of the last such entry |
| DesikanKilliany.EveryNameHasAColor | src/data/desikanKillianyRegions.js:1215-1220 | every entry's name is a key of the colour map |
| DesikanKilliany.RegionColors | src/data/desikanKillianyRegions.js:1215-1220 | the `reduce` writing each entry's colour under its name; its contract is carried by `RegionColorsLastWriteWins` and `EveryNameHasAColor` |
| BrainRegions.TableShape | src/data/brainRegions.js:6-598 | 24 entries with ids 1 to 24 in order and distinct keys, as the "AAL Atlas (24 regions)" option says |
| BrainRegions.GetRegionByName | src/data/brainRegions.js:601 | `brainRegionsData[name]`: defined iff the name is a key, and then that entry's value |
| BrainRegions.LookupFindsEntry | src/data/brainRegions.js:601 | with distinct keys, an entry's key finds that entry's value |
| BrainRegions.GetRegionsByLobe | src/data/brainRegions.js:603-605 | an order-preserving subsequence holding exactly the values whose lobe equals the argument, case included |
| BrainRegions.GetRegionsByHemisphere | src/data/brainRegions.js:607-609 | the same for the hemisphere |
| BrainRegions.LobeFilterIsCaseSensitive | src/data/brainRegions.js:603-609 | over the table, a lower-case lobe or hemisphere finds nothing |
| BrainRegions.SearchRegions | src/data/brainRegions.js:611-623 | an order-preserving subsequence holding exactly the values matching the lower-cased query on name, short name, lobe, description, functions or keywords |
| BrainRegions.SearchIgnoresQueryCase | src/data/brainRegions.js:612 | the query's case never matters |
| BrainRegions.EmptySearchReturnsAll | src/data/brainRegions.js:611-623 | an empty query returns every value |
| BrainRegions.KeywordsAreNotLowerCased | src/data/brainRegions.js:620 | a region known only by the keyword `Motor` is not found by `motor` |
| BrainRegions.AllLobesProperties | src/data/brainRegions.js:625-627 | the lobes listed are distinct, are exactly the values' lobes, and keep first-appearance order |
| BrainRegions.AllHemispheresProperties | src/data/brainRegions.js:629-631 | the same for the hemispheres |
| BrainRegions.GetAllLobes | src/data/brainRegions.js:625-627 | `[...new Set(values.map(lobe))]`; its contract is carried by `AllLobesProperties` |
| BrainRegions.GetAllHemispheres | src/data/brainRegions.js:629-631 | the same for the hemispheres; its contract is carried by `AllHemispheresProperties` |
| JsText.WordsOfJoin | src/utils/atlasParser.js:29 | splitting on whitespace after joining words with single spaces gives the words back |
| JsText.JoinSplitOn | src/utils/atlasParser.js:12 | joining the pieces of `split` with the separator gives the string back |
| JsText.TrimIdempotent | src/utils/atlasParser.js:12-17 | trimming twice is trimming once |
| JsText.LastPieceOfSuffix | src/components/BrainBrowser.jsx:485 | `split('.').pop()` of `stem.ext` is `ext` when `ext` has no dot |
| JsText.ReplaceFirstRemovesOne | src/components/BrainBrowser.jsx:220 | `replace('_', '')` removes exactly the first underscore |
| JsText.ReplaceSpaceRunsKeepsChar | src/components/GltfBrainModel.jsx:121-123 | replacing whitespace runs keeps every non-space character of the name |
| JsText.FirstPieceKeepsChar | src/components/GltfBrainModel.jsx:126 | the first piece of `split` keeps every character before the first separator |
| JsText.ReplaceAllKeepsChar | src/components/GltfBrainModel.jsx:124-125 | replacing every `_` keeps every other character of the id |
| JsText.IntToStringInjective | src/utils/atlasParser.js:232 | distinct ids are stored under distinct keys |
| JsArray.FilterFilter | src/EnhancedApp.jsx:153-162 | two filters in a row are one filter by the conjunction |
| JsArray.DedupKeepsFirstAppearanceOrder | src/data/brainRegions.js:626 | `[...new Set(…)]` keeps the order of first appearance |

## Left out

- **Rendering.** Left out: the three.js/React rendering, lights, materials, `useFrame`, the camera lerp, tooltips, and the installing of a buffer into a geometry attribute. They draw; they decide nothing. That last step in `applyAtlasColors` also refers to a `THREE` that file does not import. Only the buffer it would install is modelled.
- **Loading and logging.** Asset and network loading (`fetch`, the OBJ/GLTF loaders) and console logging are I/O. The parsers take the text in hand, and the effects take their inputs as parameters.
- **The link-suggestion service.** `src/services/perplexityService.js` is a remote API call and is not part of this model.
- **Geometry and input.** Procedural geometry, the rotation and keyboard controls, and the responsive scale and material cloning of `GltfBrainModel` are floating-point and DOM code outside the pipeline.
- **The rainbow scheme.** `AdvancedBrainViewer.GetRegionColor` takes the rainbow scheme's HSL colour as a parameter. HSL-to-RGB conversion is three.js colour code.
- **Colour representation.**
  - The `THREE.Color` constructor's hex parsing is modelled as `hexToRGB` (byte/255).
  - three.js colour management (sRGB to linear conversion) is not modelled.
  - Channels are reals, so Float32 rounding in the buffers is not modelled.
- JsText.IntToString: ids are assumed to be safe integers (magnitude below 2^53). JavaScript holds larger numbers inexactly and writes them with an exponent from 1e21 on, and neither is modelled.
- **`parseInt`.** `parseInt`'s prefix leniency ("12abc" gives 12) is not spelled out. The parsers are proved for an arbitrary `string -> Option<int>`.
- **The sort in `filteredRegions`.** It uses `localeCompare`, which is locale-dependent. `EnhancedApp.Pipeline` and `EnhancedApp.FilteredRegions` stop before it.
- **`Object.entries` order.** JavaScript moves integer-like keys first. Region names are assumed not to be integer-like, so the counts and `namePatterns` are scanned in insertion order.
- **Prototype keys.** Lookups such as `brainRegionsData[name]` with names like `constructor` that hit `Object.prototype` are assumed away.
- **Error paths the source never reaches.** `getParts` with a non-string id and `region.lobe?.toLowerCase()` on a missing lobe are not modelled: the tables always hold strings. The viewer's `TypeError` on a geometry without an index buffer is reachable and is modelled (`AdvancedBrainViewer.Handled`).
- **Omitted table columns.** The free-text columns no helper reads are omitted: clinical notes, connections, Brodmann areas, positions and sizes.
- **Other UI state.** The panel toggles, the `autoRotate`/`showStats` flags and the derived `lobes`/`hemispheres` option lists are UI only. `AppState` holds the selection, camera target, reset trigger and atlas.
- GltfBrainModel.Unshadowed: the full unshadowing property is proved generic (`GltfBrainModel.UnshadowedPatternsReachTheirIds`). For the corrected table it is proved only for the thalamus/hypothalamus pair, not for all 351 pairs, because the full check is too costly to verify.
- GltfBrainModel.CorrectedDefaultMapping: the corrected pattern order fixes the default view only. With subparts shown and `limbic_system` selected, phase 1 matches the thalamus part's name before any pattern is tried (`GltfBrainModel.SubpartsHypothalamusMeshIsThalamus`), so a hypothalamus mesh still becomes the thalamus there; a fix of that path would reorder the name matching and is not modelled.
- AdvancedBrainViewer.ClickedRegionByVote: the corrected click keeps the unguarded read of the index buffer, and so its `TypeError`, as written; only the choice among the corners is corrected.
- AdvancedBrainViewer.ClickedRegion: the `onRegionClick` callback being absent is not modelled; the member gives the region the handler would report.
- GltfBrainModel.MapMeshToRegion: the mesh hover and click handlers around it are not modelled. They only forward its result to the callbacks.
- EnhancedApp.DkHemisphereListing: stated for the table built from any text columns (`DesikanKilliany.DkTable(left, right)`). The constant table is one instance of it.
- DesikanKilliany.RegionColorsLastWriteWins: the names of the 68 entries are not proved distinct, so "each name holds its own colour" is stated only as "the last entry with that name".

## Findings

| source | as written | input that shows it | evidently intended | confidence | as-written member | corrected member |
|---|---|---|---|---|---|---|
| src/AdvancedBrainViewer.jsx:119-120 | the click reports `regionA \|\| regionB \|\| regionC`, the first labelled corner | a face whose corners are labelled A, B, B | the comment says "most common region among the three vertices", as `getRegionFromFace` does | not executed | AdvancedBrainViewer.ClickIsNotMajority | AdvancedBrainViewer.VoteClickProperties |
| src/components/GltfBrainModel.jsx:154-155 | the pattern `'thalamus'` comes before `'hypothalamus'`, and `'hypothalamus'` contains it | in the default view (no subparts shown), a mesh named "Hypothalamus" maps to the limbic system's thalamus part | a hypothalamus mesh maps to the hypothalamus part (the longer pattern first) | not executed | GltfBrainModel.DefaultHypothalamusMeshIsThalamus | GltfBrainModel.CorrectedDefaultMapping |
