/** The mesh-to-region mapping of `src/components/GltfBrainModel.jsx` (`mapMeshToRegion`), as a
    pure function of the mesh's name, its index, the number of meshes, whether subparts are shown
    and the selected main region. The three phases are a match on name variations, a match on a
    fixed table of anatomical terms, and a fallback that buckets meshes by index. */
module GltfBrainModel {
  import opened Wrappers
  import opened JsText
  import opened JsArray
  import opened BrainStructure

  /** An element of the display list, or a region or part found in the whole structure. */
  datatype Node = RegionNode(region: MainRegion) | PartNode(part: Part) {
    function Id(): string {
      match this
      case RegionNode(r) => r.id
      case PartNode(p) => p.id
    }

    function Name(): string {
      match this
      case RegionNode(r) => r.name
      case PartNode(p) => p.name
    }
  }

  function AsRegionNode(r: MainRegion): Node {
    RegionNode(r)
  }

  function AsPartNode(p: Part): Node {
    PartNode(p)
  }

  /** A JavaScript string prop is truthy when present and non-empty. */
  predicate Truthy(s: Option<string>) {
    s.Some? && s.value != ""
  }

  /** `regionsToDisplay`: the parts of the selected main region when subparts are shown and a
      region is selected, otherwise the main regions. */
  function DisplayList(table: seq<StructureEntry>, showSubparts: bool, selectedMainRegion: Option<string>): (display: seq<Node>)
    ensures showSubparts && Truthy(selectedMainRegion) ==>
      |display| == |GetParts(table, selectedMainRegion.value)|
      && forall i :: 0 <= i < |display| ==> display[i] == PartNode(GetParts(table, selectedMainRegion.value)[i])
    ensures !(showSubparts && Truthy(selectedMainRegion)) ==>
      |display| == |GetMainRegions(table)|
      && forall i :: 0 <= i < |display| ==> display[i] == RegionNode(GetMainRegions(table)[i])
  {
    if showSubparts && Truthy(selectedMainRegion) then Map(GetParts(table, selectedMainRegion.value), AsPartNode)
    else Map(GetMainRegions(table), AsRegionNode)
  }

  /** In a well-formed table, the display list holds main regions of type `'REGION'`, or parts of
      the selected region. */
  lemma DisplayListKinds(table: seq<StructureEntry>, showSubparts: bool, selectedMainRegion: Option<string>)
    requires PartsWellFormed(table)
    ensures var display := DisplayList(table, showSubparts, selectedMainRegion);
      forall i :: 0 <= i < |display| ==>
        || (display[i].RegionNode? && display[i].region.kind == "REGION" && display[i].region in Values(table))
        || (display[i].PartNode? && display[i].part.kind == "PART"
            && display[i].part.partOf == Lookup(table, selectedMainRegion.value).value.name)
  {
    if showSubparts && Truthy(selectedMainRegion) {
      PartsBelongToParent(table, selectedMainRegion.value);
    }
  }

  /** The six spellings of a node's name and id that phase 1 looks for: the lower-cased name with
      runs of white space removed, replaced by `_` and by `-`; the lower-cased id with
      underscores removed and replaced by `-`; the name's first space-separated word. */
  function NameVariations(n: Node): (vs: seq<string>)
    ensures |vs| == 6
  {
    var lowerName := Lower(n.Name());
    var lowerId := Lower(n.Id());
    [ReplaceSpaceRuns(lowerName, ""), ReplaceSpaceRuns(lowerName, "_"), ReplaceSpaceRuns(lowerName, "-"),
     ReplaceAll(lowerId, '_', ""), ReplaceAll(lowerId, '_', "-"), SplitOn(lowerName, ' ')[0]]
  }

  /** Some variation of the node occurs in the lower-cased mesh name. */
  predicate NameHit(meshName: string, n: Node) {
    exists k :: 0 <= k < 6 && Contains(meshName, NameVariations(n)[k])
  }

  /** Phase 1: the first node of the display list, in order, with a variation in the mesh name. */
  function NamePhase(display: seq<Node>, meshName: string): (r: Option<Node>)
    ensures r.Some? ==> exists i :: (0 <= i < |display| && display[i] == r.value && NameHit(meshName, display[i])
      && forall j :: 0 <= j < i ==> !NameHit(meshName, display[j]))
    ensures r.None? ==> forall i :: 0 <= i < |display| ==> !NameHit(meshName, display[i])
  {
    Find(display, (n: Node) => NameHit(meshName, n))
  }

  /** An entry of `namePatterns`: a term and the id it stands for. */
  datatype NamePattern = NamePattern(pattern: string, regionId: string)

  /** The entries of `namePatterns` before `'thalamus'`, in the order `Object.entries` lists them. */
  const EarlyPatterns: seq<NamePattern> := [
    NamePattern("frontal", "frontal_lobe"), NamePattern("parietal", "parietal_lobe"), NamePattern("temporal", "temporal_lobe"),
    NamePattern("occipital", "occipital_lobe"), NamePattern("cerebellum", "cerebellum"), NamePattern("cerebel", "cerebellum"),
    NamePattern("brainstem", "brainstem"), NamePattern("brain_stem", "brainstem"), NamePattern("stem", "brainstem"),
    NamePattern("limbic", "limbic_system"), NamePattern("hippocampus", "hippocampus"), NamePattern("hippo", "hippocampus"),
    NamePattern("amygdala", "amygdala")
  ]

  const ThalamusPattern := NamePattern("thalamus", "thalamus")
  const HypothalamusPattern := NamePattern("hypothalamus", "hypothalamus")

  /** The entries of `namePatterns` after `'hypothalamus'`. */
  const LatePatterns: seq<NamePattern> := [
    NamePattern("hypo", "hypothalamus"), NamePattern("basal", "basal_ganglia"), NamePattern("ganglia", "basal_ganglia"),
    NamePattern("caudate", "caudate_nucleus"), NamePattern("putamen", "putamen"), NamePattern("nucleus", "caudate_nucleus"),
    NamePattern("cortex", "cerebral_cortex"), NamePattern("corpus", "corpus_callosum"), NamePattern("callosum", "corpus_callosum"),
    NamePattern("pons", "brainstem_pons"), NamePattern("medulla", "brainstem_medulla"), NamePattern("midbrain", "midbrain")
  ]

  /** `namePatterns`, all 27 entries in order. */
  const NamePatterns: seq<NamePattern> := EarlyPatterns + [ThalamusPattern, HypothalamusPattern] + LatePatterns

  /** The search of the whole structure in phase 2: for each region in order, the region itself
      when its id matches, else the first of its parts with that id, returned as it is stored. */
  function StructureFind(regions: seq<MainRegion>, id: string): (r: Option<Node>)
    ensures r.Some? ==> r.value.Id() == id
    ensures r.None? <==> forall i :: 0 <= i < |regions| ==> regions[i].id != id && !HasPartWithId(regions[i], id)
    decreases |regions|
  {
    if regions == [] then None
    else if regions[0].id == id then Some(RegionNode(regions[0]))
    else
      match Find(PartsOf(regions[0]), IdIs(id))
      case Some(p) => Some(PartNode(p))
      case None =>
        assert forall i :: 1 <= i < |regions| ==> regions[i] == regions[1..][i - 1];
        StructureFind(regions[1..], id)
  }

  /** Where phase 2 looks up a pattern's id: the display list first, then the whole structure. */
  function Resolve(display: seq<Node>, table: seq<StructureEntry>, id: string): (r: Option<Node>)
    ensures r.Some? ==> r.value.Id() == id
    ensures (exists i :: 0 <= i < |display| && display[i].Id() == id) ==> r.Some? && r.value in display
    ensures r.None? <==> ((forall i :: 0 <= i < |display| ==> display[i].Id() != id)
      && forall i :: 0 <= i < |table| ==> table[i].region.id != id && !HasPartWithId(table[i].region, id))
  {
    match Find(display, (n: Node) => n.Id() == id)
    case Some(n) => Some(n)
    case None => StructureFind(Values(table), id)
  }

  /** Pattern `i` occurs in the mesh name and its id resolves. */
  predicate PatternResolves(patterns: seq<NamePattern>, display: seq<Node>, table: seq<StructureEntry>, meshName: string, i: nat)
    requires i < |patterns|
  {
    Contains(meshName, patterns[i].pattern) && Resolve(display, table, patterns[i].regionId).Some?
  }

  /** Phase 2: the first pattern, in table order, that occurs in the mesh name and whose id
      resolves; a pattern whose id is found nowhere is passed over. */
  function PatternPhase(patterns: seq<NamePattern>, display: seq<Node>, table: seq<StructureEntry>, meshName: string): (r: Option<Node>)
    ensures r.Some? ==> exists i :: (0 <= i < |patterns| && PatternResolves(patterns, display, table, meshName, i)
      && r == Resolve(display, table, patterns[i].regionId)
      && forall j :: 0 <= j < i ==> !PatternResolves(patterns, display, table, meshName, j))
    ensures r.None? ==> forall i :: 0 <= i < |patterns| ==> !PatternResolves(patterns, display, table, meshName, i)
    decreases |patterns|
  {
    if patterns == [] then None
    else
      var found := if Contains(meshName, patterns[0].pattern) then Resolve(display, table, patterns[0].regionId) else None;
      if found.Some? then
        assert PatternResolves(patterns, display, table, meshName, 0);
        found
      else
        var r := PatternPhase(patterns[1..], display, table, meshName);
        assert forall j :: 1 <= j < |patterns| ==>
          PatternResolves(patterns, display, table, meshName, j) == PatternResolves(patterns[1..], display, table, meshName, j - 1);
        r
  }

  /** `Math.ceil(n / k)` for natural numbers. */
  function CeilDiv(n: nat, k: nat): (c: nat)
    requires k > 0
    ensures c * k >= n && (c == 0 || (c - 1) * k < n)
  {
    var c := (n + k - 1) / k;
    assert c * k + (n + k - 1) % k == n + k - 1;
    c
  }

  /** Phase 3 for a non-empty display list of `k` nodes: with at most six meshes, round robin;
      otherwise `ceil(meshCount / k)` consecutive meshes per node, clamped to the last node. */
  function Bucket(index: nat, meshCount: nat, k: nat): (b: nat)
    requires k > 0
    ensures b < k
  {
    if meshCount <= 6 then index % k
    else
      var perRegion := CeilDiv(meshCount, k);
      var regionIndex := index / perRegion;
      if regionIndex < k - 1 then regionIndex else k - 1
  }

  /** For a mesh that exists (`index < meshCount`) the clamp to the last node never fires. */
  lemma BucketNeedsNoClamp(index: nat, meshCount: nat, k: nat)
    requires k > 0 && 6 < meshCount && index < meshCount
    ensures index / CeilDiv(meshCount, k) < k
  {
    var perRegion := CeilDiv(meshCount, k);
    var q := index / perRegion;
    if q >= k {
      MulMono(perRegion, k, q);
      assert false;
    }
  }

  /** With more than six meshes the nodes get consecutive runs of meshes: the bucket never
      decreases as the index grows. */
  lemma BucketMonotone(i: nat, j: nat, meshCount: nat, k: nat)
    requires k > 0 && 6 < meshCount && i <= j
    ensures Bucket(i, meshCount, k) <= Bucket(j, meshCount, k)
  {
    var perRegion := CeilDiv(meshCount, k);
    DivMonotone(i, j, perRegion);
  }

  lemma DivMonotone(i: nat, j: nat, d: nat)
    requires d > 0 && i <= j
    ensures i / d <= j / d
  {
    var qi, qj := i / d, j / d;
    if qi > qj {
      MulMono(d, qj + 1, qi);
      assert false;
    }
  }

  lemma {:induction false} MulMono(a: nat, b: nat, c: nat)
    requires b <= c
    ensures a * b <= a * c
    decreases c - b
  {
    if b < c {
      MulMono(a, b, c - 1);
      assert a * c == a * (c - 1) + a;
    }
  }

  /** `mapMeshToRegion`: phase 1, then phase 2 over `patterns`, then the index buckets, then
      `brainStructure.cerebrum`. The component passes `NamePatterns`. */
  function MapMeshToRegion(table: seq<StructureEntry>, patterns: seq<NamePattern>, meshName: string, index: nat,
                           meshCount: nat, showSubparts: bool, selectedMainRegion: Option<string>): (r: Option<Node>)
    ensures var display, m := DisplayList(table, showSubparts, selectedMainRegion), Lower(meshName);
      && (NamePhase(display, m).Some? ==> r == NamePhase(display, m))
      && (NamePhase(display, m).None? && PatternPhase(patterns, display, table, m).Some? ==> r == PatternPhase(patterns, display, table, m))
      && (NamePhase(display, m).None? && PatternPhase(patterns, display, table, m).None? && |display| > 0 ==>
            r == Some(display[Bucket(index, meshCount, |display|)]))
      && (NamePhase(display, m).None? && PatternPhase(patterns, display, table, m).None? && |display| == 0 ==>
            r == if "cerebrum" in Keys(table) then Some(RegionNode(Lookup(table, "cerebrum").value)) else None)
  {
    var m := Lower(meshName);
    var display := DisplayList(table, showSubparts, selectedMainRegion);
    match NamePhase(display, m)
    case Some(n) => Some(n)
    case None =>
      match PatternPhase(patterns, display, table, m)
      case Some(n) => Some(n)
      case None =>
        if |display| > 0 then Some(display[Bucket(index, meshCount, |display|)])
        else
          match Lookup(table, "cerebrum")
          case Some(r) => Some(RegionNode(r))
          case None => None
  }

  /** Whatever the mesh, the result is defined as soon as the table has a `cerebrum` key. */
  lemma MappingIsTotal(table: seq<StructureEntry>, patterns: seq<NamePattern>, meshName: string, index: nat,
                       meshCount: nat, showSubparts: bool, selectedMainRegion: Option<string>)
    requires "cerebrum" in Keys(table)
    ensures MapMeshToRegion(table, patterns, meshName, index, meshCount, showSubparts, selectedMainRegion).Some?
  {
  }

  /** `brainStructure` has a `cerebrum` key, so the mapping over it never yields `undefined`. */
  lemma StructureMappingIsTotal(texts: seq<RegionText>, meshName: string, index: nat,
                                meshCount: nat, showSubparts: bool, selectedMainRegion: Option<string>)
    ensures MapMeshToRegion(Assemble(StructureKeys, StructureIdentities, texts), NamePatterns, meshName, index,
      meshCount, showSubparts, selectedMainRegion).Some?
  {
    var table := Assemble(StructureKeys, StructureIdentities, texts);
    assert table[0].key == "cerebrum";
    MappingIsTotal(table, NamePatterns, meshName, index, meshCount, showSubparts, selectedMainRegion);
  }

  /** The first pattern of the table contained in a (lower-cased) mesh name. */
  function FirstPatternHit(patterns: seq<NamePattern>, meshName: string): (r: Option<nat>)
    ensures r.Some? ==> (r.value < |patterns| && Contains(meshName, patterns[r.value].pattern)
      && forall j :: 0 <= j < r.value ==> !Contains(meshName, patterns[j].pattern))
    ensures r.None? ==> forall j :: 0 <= j < |patterns| ==> !Contains(meshName, patterns[j].pattern)
  {
    FindIndex(patterns, (p: NamePattern) => Contains(meshName, p.pattern))
  }

  /** A pattern is shadowed when an earlier pattern for another id occurs in it: a mesh name
      holding it then always hits the earlier one first. */
  predicate UnshadowedPair(patterns: seq<NamePattern>, i: nat, j: nat)
    requires j < i < |patterns|
  {
    patterns[j].regionId == patterns[i].regionId || !Contains(patterns[i].pattern, patterns[j].pattern)
  }

  predicate Unshadowed(patterns: seq<NamePattern>) {
    forall i, j :: 0 <= j < i < |patterns| ==> UnshadowedPair(patterns, i, j)
  }

  /** In an unshadowed table, a mesh named exactly after a pattern hits a pattern for the same id. */
  lemma UnshadowedPatternsReachTheirIds(patterns: seq<NamePattern>, i: nat)
    requires Unshadowed(patterns) && i < |patterns|
    ensures var hit := FirstPatternHit(patterns, patterns[i].pattern);
      hit.Some? && patterns[hit.value].regionId == patterns[i].regionId
  {
    var m := patterns[i].pattern;
    ContainsAt(m, m, 0);
    var hit := FirstPatternHit(patterns, m);
    assert hit.Some? && hit.value <= i;
    if hit.value < i {
      assert UnshadowedPair(patterns, i, hit.value);
    }
  }

  /** A pattern that holds a character the mesh name lacks is not in the mesh name. */
  lemma NoPatternHit(meshName: string, patterns: seq<NamePattern>, witnesses: string)
    requires |witnesses| == |patterns|
    requires forall j :: 0 <= j < |patterns| ==> witnesses[j] in patterns[j].pattern && witnesses[j] !in meshName
    ensures FirstPatternHit(patterns, meshName).None?
  {
    forall j | 0 <= j < |patterns|
      ensures !Contains(meshName, patterns[j].pattern)
    {
      NotContainsChar(meshName, patterns[j].pattern, witnesses[j]);
    }
  }

  /** A pattern in the mesh name after a prefix of the table that misses it is the first hit. */
  lemma HitAfterMissedPrefix(patterns: seq<NamePattern>, i: nat, meshName: string)
    requires i < |patterns| && Contains(meshName, patterns[i].pattern)
    requires FirstPatternHit(patterns[..i], meshName).None?
    ensures FirstPatternHit(patterns, meshName) == Some(i)
  {
    assert forall j :: 0 <= j < i ==> patterns[..i][j] == patterns[j];
  }

  /** A table that misses a mesh name misses every part of it. */
  lemma MissedBySubstring(patterns: seq<NamePattern>, meshName: string, part: string)
    requires FirstPatternHit(patterns, meshName).None? && Contains(meshName, part)
    ensures FirstPatternHit(patterns, part).None?
  {
    forall j | 0 <= j < |patterns|
      ensures !Contains(part, patterns[j].pattern)
    {
      if Contains(part, patterns[j].pattern) {
        ContainsTransitive(meshName, part, patterns[j].pattern);
      }
    }
  }

  /** A prefix that misses a mesh name, extended by a pattern that is not in it, still misses it. */
  lemma MissedPrefixExtends(patterns: seq<NamePattern>, p: NamePattern, meshName: string)
    requires FirstPatternHit(patterns, meshName).None? && !Contains(meshName, p.pattern)
    ensures FirstPatternHit(patterns + [p], meshName).None?
  {
    assert forall j :: 0 <= j < |patterns| ==> (patterns + [p])[j] == patterns[j];
  }

  lemma TablePrefixes()
    ensures |EarlyPatterns| == 13 && |NamePatterns| == 27 && |CorrectedNamePatterns| == 27
    ensures NamePatterns[..13] == EarlyPatterns && CorrectedNamePatterns[..13] == EarlyPatterns
    ensures CorrectedNamePatterns[..14] == EarlyPatterns + [HypothalamusPattern]
    ensures NamePatterns[13] == ThalamusPattern && NamePatterns[14] == HypothalamusPattern
    ensures CorrectedNamePatterns[13] == HypothalamusPattern && CorrectedNamePatterns[14] == ThalamusPattern
    ensures NamePatterns[15..] == LatePatterns && CorrectedNamePatterns[15..] == LatePatterns
  {
  }

  lemma ThalamusInHypothalamus()
    ensures Contains("hypothalamus", "thalamus")
  {
    ContainsAt("hypothalamus", "thalamus", 4);
  }

  /** In `namePatterns` the entry `'hypothalamus'` comes right after `'thalamus'`, which it
      contains, and the two stand for different ids: the table is shadowed, and no mesh name ever
      hits the `'hypothalamus'` entry first. */
  lemma HypothalamusEntryIsShadowed(meshName: string)
    ensures NamePatterns[13] == ThalamusPattern && NamePatterns[14] == HypothalamusPattern
    ensures !UnshadowedPair(NamePatterns, 14, 13) && !Unshadowed(NamePatterns)
    ensures FirstPatternHit(NamePatterns, meshName) != Some(14)
  {
    TablePrefixes();
    ThalamusInHypothalamus();
    if Contains(meshName, "hypothalamus") {
      ContainsTransitive(meshName, "hypothalamus", "thalamus");
    }
  }

  /** A mesh name that holds "hypothalamus" and none of the thirteen patterns before `'thalamus'`
      hits `'thalamus'`: `mapMeshToRegion` sends it to the thalamus. */
  lemma HypothalamusMeshHitsThalamus(meshName: string)
    requires Contains(meshName, "hypothalamus") && FirstPatternHit(EarlyPatterns, meshName).None?
    ensures FirstPatternHit(NamePatterns, meshName) == Some(13) && NamePatterns[13].regionId == "thalamus"
  {
    ThalamusInHypothalamus();
    ContainsTransitive(meshName, "hypothalamus", "thalamus");
    TablePrefixes();
    HitAfterMissedPrefix(NamePatterns, 13, meshName);
  }

  /** The mesh named "hypothalamus" holds none of the first thirteen patterns ... */
  lemma HypothalamusMissesEarlyPatterns()
    ensures FirstPatternHit(EarlyPatterns, "hypothalamus").None?
  {
    NoPatternHit("hypothalamus", EarlyPatterns, "rrrirrrreiiid");
  }

  /** ... and neither does the mesh named "thalamus". */
  lemma ThalamusMissesEarlyPatterns()
    ensures FirstPatternHit(EarlyPatterns, "thalamus").None?
  {
    HypothalamusMissesEarlyPatterns();
    ThalamusInHypothalamus();
    MissedBySubstring(EarlyPatterns, "hypothalamus", "thalamus");
  }

  /** `namePatterns` with the `'hypothalamus'` entry moved before `'thalamus'`. */
  const CorrectedNamePatterns: seq<NamePattern> := EarlyPatterns + [HypothalamusPattern, ThalamusPattern] + LatePatterns

  /** In the corrected table a mesh name holding "hypothalamus" (and none of the thirteen
      first patterns) hits the hypothalamus entry. */
  lemma CorrectedHypothalamusHit(meshName: string)
    requires Contains(meshName, "hypothalamus") && FirstPatternHit(EarlyPatterns, meshName).None?
    ensures FirstPatternHit(CorrectedNamePatterns, meshName) == Some(13)
    ensures CorrectedNamePatterns[13] == HypothalamusPattern
  {
    TablePrefixes();
    HitAfterMissedPrefix(CorrectedNamePatterns, 13, meshName);
  }

  /** ... a mesh name holding "thalamus" but not "hypothalamus" still hits the thalamus entry,
      and the table keeps every other entry of `namePatterns` in place. */
  lemma CorrectedThalamusHit(meshName: string)
    requires Contains(meshName, "thalamus") && !Contains(meshName, "hypothalamus")
    requires FirstPatternHit(EarlyPatterns, meshName).None?
    ensures FirstPatternHit(CorrectedNamePatterns, meshName) == Some(14)
    ensures CorrectedNamePatterns[14] == ThalamusPattern
    ensures |CorrectedNamePatterns| == |NamePatterns|
    ensures forall j :: 0 <= j < |NamePatterns| && j != 13 && j != 14 ==> CorrectedNamePatterns[j] == NamePatterns[j]
  {
    TablePrefixes();
    MissedPrefixExtends(EarlyPatterns, HypothalamusPattern, meshName);
    HitAfterMissedPrefix(CorrectedNamePatterns, 14, meshName);
    forall j | 0 <= j < |NamePatterns| && j != 13 && j != 14
      ensures CorrectedNamePatterns[j] == NamePatterns[j]
    {
      if j < 13 {
        assert CorrectedNamePatterns[..13][j] == NamePatterns[..13][j];
      } else {
        assert CorrectedNamePatterns[15..][j - 15] == NamePatterns[15..][j - 15];
      }
    }
  }

  /** The meshes named "hypothalamus" and "thalamus" now reach their own ids, and the pair no
      longer shadows. */
  lemma CorrectedPairIsUnshadowed()
    ensures UnshadowedPair(CorrectedNamePatterns, 14, 13)
    ensures FirstPatternHit(CorrectedNamePatterns, "hypothalamus") == Some(13)
    ensures FirstPatternHit(CorrectedNamePatterns, "thalamus") == Some(14)
    ensures CorrectedNamePatterns[13].regionId == "hypothalamus" && CorrectedNamePatterns[14].regionId == "thalamus"
  {
    TablePrefixes();
    HypothalamusMissesEarlyPatterns();
    ThalamusMissesEarlyPatterns();
    ContainsAt("hypothalamus", "hypothalamus", 0);
    ContainsAt("thalamus", "thalamus", 0);
    NotContainsLonger("thalamus", "hypothalamus");
    CorrectedHypothalamusHit("hypothalamus");
    CorrectedThalamusHit("thalamus");
  }

  // ---------------------------------------------------------------------------------------
  // The mapping of a hypothalamus mesh over `brainStructure`

  /** A character of a node's name (before its first space) that is also a character of its id,
      and neither white space nor `_`, survives into all six variations. */
  lemma VariationsCarry(n: Node, ch: char, i: nat, j: nat)
    requires i < |n.Name()| && LowerChar(n.Name()[i]) == ch && !IsSpace(ch) && ch != '_'
    requires forall k :: 0 <= k <= i ==> n.Name()[k] != ' '
    requires j < |n.Id()| && LowerChar(n.Id()[j]) == ch
    ensures forall k :: 0 <= k < 6 ==> ch in NameVariations(n)[k]
  {
    var lowerName, lowerId := Lower(n.Name()), Lower(n.Id());
    ReplaceSpaceRunsKeepsChar(lowerName, "", i);
    ReplaceSpaceRunsKeepsChar(lowerName, "_", i);
    ReplaceSpaceRunsKeepsChar(lowerName, "-", i);
    ReplaceAllKeepsChar(lowerId, '_', "", j);
    ReplaceAllKeepsChar(lowerId, '_', "-", j);
    FirstPieceKeepsChar(lowerName, ' ', i);
  }

  /** ... so a mesh name lacking that character misses the node in phase 1. */
  lemma MissesNode(meshName: string, n: Node, ch: char, i: nat, j: nat)
    requires i < |n.Name()| && LowerChar(n.Name()[i]) == ch && !IsSpace(ch) && ch != '_'
    requires forall k :: 0 <= k <= i ==> n.Name()[k] != ' '
    requires j < |n.Id()| && LowerChar(n.Id()[j]) == ch
    requires ch !in meshName
    ensures !NameHit(meshName, n)
  {
    VariationsCarry(n, ch, i, j);
    forall k | 0 <= k < 6
      ensures !Contains(meshName, NameVariations(n)[k])
    {
      NotContainsChar(meshName, NameVariations(n)[k], ch);
    }
  }

  /** The ids and names of the six main regions of `brainStructure`, whatever its text columns. */
  lemma MainIdentities(texts: seq<RegionText>)
    ensures var t := Assemble(StructureKeys, StructureIdentities, texts);
      && |t| == 6
      && t[0].region.id == "cerebrum" && t[0].region.name == "Cerebrum"
      && t[1].region.id == "limbic_system" && t[1].region.name == "Limbic System"
      && t[2].region.id == "basal_ganglia" && t[2].region.name == "Basal Ganglia"
      && t[3].region.id == "midbrain" && t[3].region.name == "Midbrain"
      && t[4].region.id == "hindbrain" && t[4].region.name == "Hindbrain"
      && t[5].region.id == "brainstem" && t[5].region.name == "Brainstem"
  {
  }

  /** No main region, and no part of the cerebrum, has the id `thalamus` or `hypothalamus`. */
  lemma NoEarlierLimbicIds(texts: seq<RegionText>, id: string)
    requires id == "thalamus" || id == "hypothalamus"
    ensures var t := Assemble(StructureKeys, StructureIdentities, texts);
      && |t| == 6
      && (forall i :: 0 <= i < 6 ==> t[i].region.id != id)
      && (forall k :: 0 <= k < |PartsOf(t[0].region)| ==> PartsOf(t[0].region)[k].id != id)
  {
    MainIdentities(texts);
  }

  /** The display list when no subpart view is asked for: the six main regions in order. */
  lemma DefaultDisplay(texts: seq<RegionText>)
    ensures var t := Assemble(StructureKeys, StructureIdentities, texts);
      var d := DisplayList(t, false, None);
      |d| == 6 && |t| == 6 && forall i :: 0 <= i < 6 ==> d[i] == RegionNode(t[i].region)
  {
    MainRegionsAreAll(texts);
  }

  /** Six nodes that each carry a `b` in their name's first word and in their id are all missed
      in phase 1 by a mesh name without a `b`. */
  lemma MissedWithoutB(d: seq<Node>, meshName: string)
    requires 'b' !in meshName && |d| == 6
    requires d[0].Name() == "Cerebrum" && d[0].Id() == "cerebrum"
    requires d[1].Name() == "Limbic System" && d[1].Id() == "limbic_system"
    requires d[2].Name() == "Basal Ganglia" && d[2].Id() == "basal_ganglia"
    requires d[3].Name() == "Midbrain" && d[3].Id() == "midbrain"
    requires d[4].Name() == "Hindbrain" && d[4].Id() == "hindbrain"
    requires d[5].Name() == "Brainstem" && d[5].Id() == "brainstem"
    ensures NamePhase(d, meshName).None?
  {
    MissesNode(meshName, d[0], 'b', 4, 4);
    MissesNode(meshName, d[1], 'b', 3, 3);
    MissesNode(meshName, d[2], 'b', 0, 0);
    MissesNode(meshName, d[3], 'b', 3, 3);
    MissesNode(meshName, d[4], 'b', 4, 4);
    MissesNode(meshName, d[5], 'b', 0, 0);
  }

  /** The main regions all have such a `b`, so in the default view a mesh name without one
      misses phase 1. */
  lemma DefaultNamePhaseMisses(texts: seq<RegionText>, meshName: string)
    requires 'b' !in meshName
    ensures NamePhase(DisplayList(Assemble(StructureKeys, StructureIdentities, texts), false, None), meshName).None?
  {
    DefaultDisplay(texts);
    MainIdentities(texts);
    MissedWithoutB(DisplayList(Assemble(StructureKeys, StructureIdentities, texts), false, None), meshName);
  }

  /** The parts of `brainStructure.limbic_system`, as `getParts` returns them. */
  lemma LimbicParts(texts: seq<RegionText>)
    ensures var t := Assemble(StructureKeys, StructureIdentities, texts);
      var ps := GetParts(t, "limbic_system");
      && |ps| == 4 && |t| == 6 && ps == PartsOf(t[1].region)
      && ps[0].id == "hippocampus" && ps[0].name == "Hippocampus"
      && ps[1].id == "amygdala" && ps[1].name == "Amygdala"
      && ps[2].id == "thalamus" && ps[2].name == "Thalamus" && ps[2].partOf == "Limbic System"
      && ps[3].id == "hypothalamus" && ps[3].name == "Hypothalamus" && ps[3].partOf == "Limbic System"
  {
    StructureShape(texts);
    LookupFindsEntry(Assemble(StructureKeys, StructureIdentities, texts), 1);
  }

  /** A node is the limbic system's part with that id. */
  predicate IsLimbicPart(n: Node, table: seq<StructureEntry>, id: string) {
    n.PartNode? && n.part.id == id && n.part.partOf == "Limbic System" && n.part in GetParts(table, "limbic_system")
  }

  /** An id no display node has is resolved by the search of the whole structure. */
  lemma ResolveOutsideDisplay(display: seq<Node>, table: seq<StructureEntry>, id: string)
    requires forall i :: 0 <= i < |display| ==> display[i].Id() != id
    ensures Resolve(display, table, id) == StructureFind(Values(table), id)
  {
    assert Find(display, (n: Node) => n.Id() == id).None?;
  }

  /** When neither the first region nor any of its parts has the id, and the second region does
      not either, the search returns the second region's first part with that id. */
  lemma StructureFindInSecond(regions: seq<MainRegion>, id: string, j: nat)
    requires |regions| >= 2 && regions[0].id != id && regions[1].id != id
    requires forall k :: 0 <= k < |PartsOf(regions[0])| ==> PartsOf(regions[0])[k].id != id
    requires j < |PartsOf(regions[1])| && PartsOf(regions[1])[j].id == id
    requires forall k :: 0 <= k < j ==> PartsOf(regions[1])[k].id != id
    ensures StructureFind(regions, id) == Some(PartNode(PartsOf(regions[1])[j]))
  {
    assert Find(PartsOf(regions[0]), IdIs(id)).None?;
    assert regions[1..][0] == regions[1];
    assert Find(PartsOf(regions[1]), IdIs(id)) == Some(PartsOf(regions[1])[j]);
  }

  /** A table of six main regions, shown as they are, none of them and none of the first one's
      parts with the id, resolves the id to the second region's first part with it. */
  lemma ResolvesInSecondRegion(t: seq<StructureEntry>, d: seq<Node>, id: string, j: nat)
    requires |t| == 6 && |d| == 6 && forall i :: 0 <= i < 6 ==> d[i] == RegionNode(t[i].region)
    requires forall i :: 0 <= i < 6 ==> t[i].region.id != id
    requires forall k :: 0 <= k < |PartsOf(t[0].region)| ==> PartsOf(t[0].region)[k].id != id
    requires j < |PartsOf(t[1].region)| && PartsOf(t[1].region)[j].id == id
    requires forall k :: 0 <= k < j ==> PartsOf(t[1].region)[k].id != id
    ensures Resolve(d, t, id) == Some(PartNode(PartsOf(t[1].region)[j]))
  {
    ResolveOutsideDisplay(d, t, id);
    StructureFindInSecond(Values(t), id, j);
  }

  /** In the default view the ids `thalamus` and `hypothalamus` resolve, through the search of
      the whole structure, to the limbic system's parts. */
  lemma DefaultResolvesLimbicPart(texts: seq<RegionText>, id: string, j: nat)
    requires (id == "thalamus" && j == 2) || (id == "hypothalamus" && j == 3)
    ensures var t := Assemble(StructureKeys, StructureIdentities, texts);
      var r := Resolve(DisplayList(t, false, None), t, id);
      r.Some? && IsLimbicPart(r.value, t, id)
  {
    var t := Assemble(StructureKeys, StructureIdentities, texts);
    DefaultDisplay(texts);
    LimbicParts(texts);
    NoEarlierLimbicIds(texts, id);
    var ps := PartsOf(t[1].region);
    assert ps[0].id != id && ps[1].id != id;
    if j == 3 {
      assert ps[2].id != id;
    }
    assert forall k :: 0 <= k < j ==> ps[k].id != id by {
      forall k | 0 <= k < j
        ensures ps[k].id != id
      {
        assert k == 0 || k == 1 || k == 2;
      }
    }
    ResolvesInSecondRegion(t, DisplayList(t, false, None), id, j);
  }

  /** Phase 2 answers with the first pattern hit when that pattern's id resolves. */
  lemma PatternPhaseAtFirstHit(patterns: seq<NamePattern>, display: seq<Node>, table: seq<StructureEntry>, meshName: string, i: nat)
    requires FirstPatternHit(patterns, meshName) == Some(i)
    requires Resolve(display, table, patterns[i].regionId).Some?
    ensures PatternPhase(patterns, display, table, meshName) == Resolve(display, table, patterns[i].regionId)
  {
    assert PatternResolves(patterns, display, table, meshName, i);
    var r := PatternPhase(patterns, display, table, meshName);
    var i' :| 0 <= i' < |patterns| && PatternResolves(patterns, display, table, meshName, i')
      && r == Resolve(display, table, patterns[i'].regionId)
      && forall j :: 0 <= j < i' ==> !PatternResolves(patterns, display, table, meshName, j);
    assert i' == i;
  }

  /** As written, in the default view: a mesh named "Hypothalamus" misses every main region in
      phase 1, first hits `'thalamus'` in phase 2, and becomes the limbic system's thalamus part,
      whatever its index, the number of meshes and the text columns. */
  lemma DefaultHypothalamusMeshIsThalamus(texts: seq<RegionText>, index: nat, meshCount: nat)
    ensures var t := Assemble(StructureKeys, StructureIdentities, texts);
      var r := MapMeshToRegion(t, NamePatterns, "Hypothalamus", index, meshCount, false, None);
      r.Some? && IsLimbicPart(r.value, t, "thalamus")
  {
    var t := Assemble(StructureKeys, StructureIdentities, texts);
    var m := Lower("Hypothalamus");
    assert m == "hypothalamus";
    DefaultNamePhaseMisses(texts, m);
    HypothalamusMissesEarlyPatterns();
    ContainsAt(m, m, 0);
    HypothalamusMeshHitsThalamus(m);
    DefaultResolvesLimbicPart(texts, "thalamus", 2);
    PatternPhaseAtFirstHit(NamePatterns, DisplayList(t, false, None), t, m, 13);
  }

  /** Corrected, in the default view: with `'hypothalamus'` before `'thalamus'` the mesh named
      "Hypothalamus" becomes the hypothalamus part. */
  lemma CorrectedDefaultMapping(texts: seq<RegionText>, index: nat, meshCount: nat)
    ensures var t := Assemble(StructureKeys, StructureIdentities, texts);
      var r := MapMeshToRegion(t, CorrectedNamePatterns, "Hypothalamus", index, meshCount, false, None);
      r.Some? && IsLimbicPart(r.value, t, "hypothalamus")
  {
    var t := Assemble(StructureKeys, StructureIdentities, texts);
    var h := Lower("Hypothalamus");
    assert h == "hypothalamus";
    DefaultNamePhaseMisses(texts, h);
    CorrectedPairIsUnshadowed();
    DefaultResolvesLimbicPart(texts, "hypothalamus", 3);
    PatternPhaseAtFirstHit(CorrectedNamePatterns, DisplayList(t, false, None), t, h, 13);
  }

  /** Corrected, in the default view: the mesh named "Thalamus" stays the thalamus part. */
  lemma CorrectedDefaultKeepsThalamus(texts: seq<RegionText>, index: nat, meshCount: nat)
    ensures var t := Assemble(StructureKeys, StructureIdentities, texts);
      var r := MapMeshToRegion(t, CorrectedNamePatterns, "Thalamus", index, meshCount, false, None);
      r.Some? && IsLimbicPart(r.value, t, "thalamus")
  {
    var t := Assemble(StructureKeys, StructureIdentities, texts);
    var th := Lower("Thalamus");
    assert th == "thalamus";
    DefaultNamePhaseMisses(texts, th);
    CorrectedPairIsUnshadowed();
    DefaultResolvesLimbicPart(texts, "thalamus", 2);
    PatternPhaseAtFirstHit(CorrectedNamePatterns, DisplayList(t, false, None), t, th, 14);
  }

  /** Phase 1 returns the third node when it is the first that the mesh name hits. */
  lemma NamePhaseThird(d: seq<Node>, meshName: string)
    requires |d| >= 3 && !NameHit(meshName, d[0]) && !NameHit(meshName, d[1]) && NameHit(meshName, d[2])
    ensures NamePhase(d, meshName) == Some(d[2])
  {
    var r := NamePhase(d, meshName);
    var i :| 0 <= i < |d| && d[i] == r.value && NameHit(meshName, d[i]) && forall j :: 0 <= j < i ==> !NameHit(meshName, d[j]);
    assert i == 2;
  }

  /** The thalamus's first variation, "thalamus", occurs in "hypothalamus". */
  lemma ThalamusVariationHits(n: Node)
    requires n.Name() == "Thalamus"
    ensures NameHit("hypothalamus", n)
  {
    assert Lower(n.Name()) == "thalamus";
    ReplaceSpaceRunsNoSpace("thalamus", "");
    ThalamusInHypothalamus();
    assert Contains("hypothalamus", NameVariations(n)[0]);
  }

  /** Phase 1 over hippocampus, amygdala, thalamus, ...: the first two carry an `i` and a `g`,
      which "hypothalamus" lacks, and the thalamus hits. */
  lemma ThalamusNodeHitsFirst(d: seq<Node>)
    requires |d| >= 3
    requires d[0].Name() == "Hippocampus" && d[0].Id() == "hippocampus"
    requires d[1].Name() == "Amygdala" && d[1].Id() == "amygdala"
    requires d[2].Name() == "Thalamus"
    ensures NamePhase(d, "hypothalamus") == Some(d[2])
  {
    MissesNode("hypothalamus", d[0], 'i', 1, 1);
    MissesNode("hypothalamus", d[1], 'g', 3, 3);
    ThalamusVariationHits(d[2]);
    NamePhaseThird(d, "hypothalamus");
  }

  /** With subparts shown and `limbic_system` selected, the display list is the limbic system's
      four parts and phase 1 already sends a mesh named "Hypothalamus" to the thalamus part,
      whatever pattern table phase 2 would use, the corrected one included. */
  lemma SubpartsHypothalamusMeshIsThalamus(texts: seq<RegionText>, patterns: seq<NamePattern>, index: nat, meshCount: nat)
    ensures var t := Assemble(StructureKeys, StructureIdentities, texts);
      var r := MapMeshToRegion(t, patterns, "Hypothalamus", index, meshCount, true, Some("limbic_system"));
      r.Some? && IsLimbicPart(r.value, t, "thalamus")
  {
    var t := Assemble(StructureKeys, StructureIdentities, texts);
    assert Lower("Hypothalamus") == "hypothalamus";
    LimbicParts(texts);
    var d := DisplayList(t, true, Some("limbic_system"));
    ThalamusNodeHitsFirst(d);
  }
}
