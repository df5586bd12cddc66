/** The AAL region table of `src/data/brainRegions.js` and its lookup and search helpers. The
    table is an object keyed by AAL label; it is modelled as the sequence of its entries in
    source order, which is the order `Object.keys` and `Object.values` visit them in because no
    key is integer-like. */
module BrainRegions {
  import opened Wrappers
  import opened JsText
  import opened JsArray

  /** One entry's value. The clinical notes, connections and Brodmann areas, which no helper
      reads, are not part of the model. */
  datatype AalRegion = AalRegion(
    id: int, name: string, shortName: string, lobe: string, hemisphere: string, color: string,
    description: string, functions: seq<string>, keywords: seq<string>)

  /** A key of `brainRegionsData` and its value. */
  datatype Entry = Entry(key: string, region: AalRegion)

  /** The identifying columns of one entry: its id, names, lobe, hemisphere and colour. */
  datatype AalIdentity = AalIdentity(
    id: int, name: string, shortName: string, lobe: string, hemisphere: string, color: string)

  /** The free-text columns of one entry, which only the search reads. */
  datatype AalText = AalText(description: string, functions: seq<string>, keywords: seq<string>)

  /** The entries of `brainRegionsData` from its keys and two column groups, paired by position;
      an entry without a text gets empty text. The columns are kept apart so that facts about
      the keys and identifying columns can be proved without the free text in view. */
  function Assemble(keys: seq<string>, ids: seq<AalIdentity>, texts: seq<AalText>): (table: seq<Entry>)
    ensures |table| == if |keys| <= |ids| then |keys| else |ids|
    ensures forall i :: 0 <= i < |table| ==> table[i].key == keys[i]
    ensures forall i :: 0 <= i < |table| ==>
      var d, r := ids[i], table[i].region;
      && r.id == d.id && r.name == d.name && r.shortName == d.shortName
      && r.lobe == d.lobe && r.hemisphere == d.hemisphere && r.color == d.color
    ensures forall i :: 0 <= i < |table| && i < |texts| ==>
      var t, r := texts[i], table[i].region;
      r.description == t.description && r.functions == t.functions && r.keywords == t.keywords
  {
    var n := if |keys| <= |ids| then |keys| else |ids|;
    seq(n, i requires 0 <= i < n =>
      var d := ids[i];
      var t := if i < |texts| then texts[i] else AalText("", [], []);
      Entry(keys[i], AalRegion(d.id, d.name, d.shortName, d.lobe, d.hemisphere, d.color,
        t.description, t.functions, t.keywords)))
  }

  /** `brainRegionsData`, in source order. */
  const BrainRegionsData: seq<Entry> := Assemble(AalKeys, AalIdentities, AalTexts)

  /** The keys of `brainRegionsData`, in source order. */
  const AalKeys: seq<string> := [
    "Frontal_Sup_L", "Frontal_Sup_R", "Frontal_Mid_L", "Frontal_Mid_R",
    "Precentral_L", "Precentral_R", "Postcentral_L", "Postcentral_R",
    "Parietal_Sup_L", "Parietal_Sup_R", "Temporal_Sup_L", "Temporal_Sup_R",
    "Occipital_Sup_L", "Occipital_Sup_R", "Calcarine_L", "Calcarine_R",
    "Hippocampus_L", "Hippocampus_R", "Amygdala_L", "Amygdala_R",
    "Cingulate_Ant_L", "Cingulate_Ant_R", "Thalamus_L", "Cerebellum_L"
  ]

  /** The identifying columns of `brainRegionsData`, in the same order. */
  const AalIdentities: seq<AalIdentity> := [
    AalIdentity(1, "Superior Frontal Gyrus (Left)", "SFG-L", "Frontal", "Left", "#FF6B6B"),
    AalIdentity(2, "Superior Frontal Gyrus (Right)", "SFG-R", "Frontal", "Right", "#FF6B6B"),
    AalIdentity(3, "Middle Frontal Gyrus (Left)", "MFG-L", "Frontal", "Left", "#FF5252"),
    AalIdentity(4, "Middle Frontal Gyrus (Right)", "MFG-R", "Frontal", "Right", "#FF5252"),
    AalIdentity(5, "Precentral Gyrus (Left)", "PreCG-L", "Frontal", "Left", "#E74C3C"),
    AalIdentity(6, "Precentral Gyrus (Right)", "PreCG-R", "Frontal", "Right", "#E74C3C"),
    AalIdentity(7, "Postcentral Gyrus (Left)", "PostCG-L", "Parietal", "Left", "#3498DB"),
    AalIdentity(8, "Postcentral Gyrus (Right)", "PostCG-R", "Parietal", "Right", "#3498DB"),
    AalIdentity(9, "Superior Parietal Lobule (Left)", "SPL-L", "Parietal", "Left", "#4ECDC4"),
    AalIdentity(10, "Superior Parietal Lobule (Right)", "SPL-R", "Parietal", "Right", "#4ECDC4"),
    AalIdentity(11, "Superior Temporal Gyrus (Left)", "STG-L", "Temporal", "Left", "#95E1D3"),
    AalIdentity(12, "Superior Temporal Gyrus (Right)", "STG-R", "Temporal", "Right", "#95E1D3"),
    AalIdentity(13, "Superior Occipital Gyrus (Left)", "SOG-L", "Occipital", "Left", "#9B59B6"),
    AalIdentity(14, "Superior Occipital Gyrus (Right)", "SOG-R", "Occipital", "Right", "#9B59B6"),
    AalIdentity(15, "Calcarine Cortex (Left)", "CAL-L", "Occipital", "Left", "#8E44AD"),
    AalIdentity(16, "Calcarine Cortex (Right)", "CAL-R", "Occipital", "Right", "#8E44AD"),
    AalIdentity(17, "Hippocampus (Left)", "HIP-L", "Limbic", "Left", "#F39C12"),
    AalIdentity(18, "Hippocampus (Right)", "HIP-R", "Limbic", "Right", "#F39C12"),
    AalIdentity(19, "Amygdala (Left)", "AMY-L", "Limbic", "Left", "#E67E22"),
    AalIdentity(20, "Amygdala (Right)", "AMY-R", "Limbic", "Right", "#E67E22"),
    AalIdentity(21, "Anterior Cingulate Cortex (Left)", "ACC-L", "Limbic", "Left", "#AA96DA"),
    AalIdentity(22, "Anterior Cingulate Cortex (Right)", "ACC-R", "Limbic", "Right", "#AA96DA"),
    AalIdentity(23, "Thalamus (Left)", "THA-L", "Subcortical", "Left", "#D68910"),
    AalIdentity(24, "Cerebellum (Left)", "CER-L", "Cerebellum", "Left", "#FCE38A")
  ]

  /** The free-text columns of `brainRegionsData`, in the same order. */
  const AalTexts: seq<AalText> := [
    // Frontal_Sup_L
    AalText(
      "The superior frontal gyrus is crucial for higher cognitive functions including working memory, self-awareness, and cognitive control.",
      ["Working memory maintenance", "Cognitive control and flexibility", "Self-awareness and introspection", "Emotional regulation", "Theory of mind"],
      ["frontal", "superior", "cognitive", "executive"]),
    // Frontal_Sup_R
    AalText(
      "Right hemisphere counterpart involved in spatial working memory and attention.",
      ["Spatial working memory", "Sustained attention", "Behavioral inhibition", "Emotional processing", "Self-referential thought"],
      ["frontal", "superior", "spatial", "attention"]),
    // Frontal_Mid_L
    AalText(
      "Important for attention, language processing, and executive functions.",
      ["Attention and cognitive control", "Language processing", "Decision making", "Response inhibition", "Working memory"],
      ["frontal", "middle", "attention", "language"]),
    // Frontal_Mid_R
    AalText(
      "Right hemisphere region involved in attention and spatial cognition.",
      ["Visuospatial attention", "Response inhibition", "Cognitive flexibility", "Error monitoring"],
      ["frontal", "middle", "visuospatial"]),
    // Precentral_L
    AalText(
      "Primary motor cortex responsible for voluntary movement of the right side of the body.",
      ["Voluntary motor control (right body)", "Motor planning", "Movement execution", "Fine motor skills"],
      ["motor", "precentral", "movement", "voluntary"]),
    // Precentral_R
    AalText(
      "Primary motor cortex controlling voluntary movement of the left side of the body.",
      ["Voluntary motor control (left body)", "Motor planning", "Movement execution", "Fine motor coordination"],
      ["motor", "precentral", "movement", "voluntary"]),
    // Postcentral_L
    AalText(
      "Primary somatosensory cortex processing touch, pressure, pain, and temperature from the right body.",
      ["Touch and pressure sensation (right body)", "Pain perception", "Temperature sensing", "Proprioception", "Tactile discrimination"],
      ["sensory", "postcentral", "touch", "somatosensory"]),
    // Postcentral_R
    AalText(
      "Primary somatosensory cortex for the left side of the body.",
      ["Touch and pressure sensation (left body)", "Pain perception", "Temperature sensing", "Proprioception"],
      ["sensory", "postcentral", "touch", "somatosensory"]),
    // Parietal_Sup_L
    AalText(
      "Integrates sensory information and coordinates spatial attention and movement.",
      ["Visuospatial processing", "Body awareness", "Reaching and grasping", "Mathematical cognition", "Spatial attention"],
      ["parietal", "superior", "spatial", "visuospatial"]),
    // Parietal_Sup_R
    AalText(
      "Right hemisphere region crucial for spatial attention and awareness.",
      ["Spatial attention (left side)", "Visuospatial processing", "Navigation", "Mental rotation"],
      ["parietal", "superior", "spatial", "navigation"]),
    // Temporal_Sup_L
    AalText(
      "Primary auditory cortex and language comprehension area (Wernicke's area).",
      ["Auditory processing", "Language comprehension", "Speech perception", "Phonological processing", "Semantic processing"],
      ["temporal", "superior", "auditory", "language", "wernicke"]),
    // Temporal_Sup_R
    AalText(
      "Processes auditory information, prosody, and social cognition.",
      ["Auditory processing", "Prosody perception", "Social cognition", "Emotional tone of voice"],
      ["temporal", "superior", "auditory", "prosody"]),
    // Occipital_Sup_L
    AalText(
      "Visual association cortex involved in processing visual information.",
      ["Visual processing", "Pattern recognition", "Visual attention", "Motion processing"],
      ["occipital", "superior", "visual", "vision"]),
    // Occipital_Sup_R
    AalText(
      "Visual association area for spatial visual processing.",
      ["Visual processing", "Spatial vision", "Motion detection", "Visual attention"],
      ["occipital", "superior", "visual", "spatial"]),
    // Calcarine_L
    AalText(
      "Primary visual cortex (V1) - the first cortical area to receive visual input.",
      ["Primary visual processing", "Edge detection", "Orientation selectivity", "Color processing", "Contrast detection"],
      ["calcarine", "visual", "primary", "v1", "vision"]),
    // Calcarine_R
    AalText(
      "Primary visual cortex for the left visual field.",
      ["Primary visual processing", "Edge detection", "Basic feature extraction", "Color processing"],
      ["calcarine", "visual", "primary", "v1"]),
    // Hippocampus_L
    AalText(
      "Critical structure for memory formation, spatial navigation, and learning.",
      ["Episodic memory formation", "Spatial navigation", "Contextual memory", "Memory consolidation", "Pattern separation"],
      ["hippocampus", "memory", "learning", "spatial", "navigation"]),
    // Hippocampus_R
    AalText(
      "Right hemisphere hippocampus specialized for spatial memory.",
      ["Spatial memory", "Navigation", "Episodic memory", "Context processing"],
      ["hippocampus", "spatial", "memory", "navigation"]),
    // Amygdala_L
    AalText(
      "Key structure for emotional processing, particularly fear and threat detection.",
      ["Fear processing", "Threat detection", "Emotional memory", "Social behavior", "Reward processing"],
      ["amygdala", "emotion", "fear", "anxiety", "threat"]),
    // Amygdala_R
    AalText(
      "Right amygdala involved in negative emotion processing.",
      ["Negative emotion processing", "Fear conditioning", "Social emotion recognition", "Arousal"],
      ["amygdala", "emotion", "fear", "negative"]),
    // Cingulate_Ant_L
    AalText(
      "Involved in emotion regulation, decision-making, and cognitive control.",
      ["Emotion regulation", "Error detection", "Conflict monitoring", "Pain processing", "Empathy"],
      ["cingulate", "anterior", "emotion", "conflict", "error"]),
    // Cingulate_Ant_R
    AalText(
      "Right ACC involved in autonomic regulation and emotional control.",
      ["Autonomic regulation", "Emotional control", "Pain perception", "Decision-making"],
      ["cingulate", "anterior", "autonomic", "emotion"]),
    // Thalamus_L
    AalText(
      "Major relay station for sensory and motor signals to the cortex.",
      ["Sensory relay", "Motor relay", "Consciousness regulation", "Sleep-wake cycles", "Attention gating"],
      ["thalamus", "relay", "sensory", "motor", "consciousness"]),
    // Cerebellum_L
    AalText(
      "Coordinates movement, balance, and motor learning.",
      ["Motor coordination", "Balance and posture", "Motor learning", "Procedural memory", "Cognitive processing", "Emotional regulation"],
      ["cerebellum", "motor", "coordination", "balance", "learning"])
  ]

  /** The table's keys, in order (`Object.keys`). */
  function Keys(table: seq<Entry>): (ks: seq<string>)
    ensures |ks| == |table| && forall i :: 0 <= i < |table| ==> ks[i] == table[i].key
  {
    Map(table, (e: Entry) => e.key)
  }

  /** The table's values, in order (`Object.values`). */
  function Values(table: seq<Entry>): (rs: seq<AalRegion>)
    ensures |rs| == |table| && forall i :: 0 <= i < |table| ==> rs[i] == table[i].region
  {
    Map(table, (e: Entry) => e.region)
  }

  /** No two entries share a key, as in any object literal without repeated keys. */
  predicate KeysDistinct(table: seq<Entry>) {
    forall i, j :: 0 <= i < j < |table| ==> table[i].key != table[j].key
  }

  /** `s` starts with a decimal digit, as every integer-like key does. */
  predicate IntegerLike(s: string) {
    s != "" && '0' <= s[0] <= '9'
  }

  /** 24 entries with ids 1 to 24 in order (the "AAL Atlas (24 regions)" option) and no two
      keys alike. */
  lemma ColumnsShape()
    ensures |AalKeys| == |AalIdentities| == 24
    ensures forall i :: 0 <= i < |AalIdentities| ==> AalIdentities[i].id == i + 1
    ensures forall i, j :: 0 <= i < j < |AalKeys| ==> AalKeys[i] != AalKeys[j]
  {
  }

  /** The table has 24 entries with ids 1 to 24 in order and distinct keys. This holds whatever
      the free text, and so for `BrainRegionsData`, which is `Assemble(AalKeys, AalIdentities,
      AalTexts)`. */
  lemma TableShape(texts: seq<AalText>)
    ensures var table := Assemble(AalKeys, AalIdentities, texts);
      && |table| == 24
      && (forall i :: 0 <= i < |table| ==> table[i].region.id == i + 1)
      && KeysDistinct(table)
  {
    ColumnsShape();
  }

  /** `getRegionByName`: `brainRegionsData[name]`, `undefined` (`None`) when there is no such
      key. */
  function GetRegionByName(table: seq<Entry>, name: string): (r: Option<AalRegion>)
    ensures r.Some? <==> name in Keys(table)
    ensures r.Some? ==> exists i :: 0 <= i < |table| && table[i] == Entry(name, r.value)
  {
    if table == [] then None
    else if table[0].key == name then Some(table[0].region)
    else
      var r := GetRegionByName(table[1..], name);
      assert Keys(table) == [table[0].key] + Keys(table[1..]);
      assert r.Some? ==> exists i :: 0 <= i < |table[1..]| && table[1..][i] == Entry(name, r.value);
      r
  }

  /** With distinct keys, looking up an entry's key gives that entry's value. */
  lemma {:induction false} LookupFindsEntry(table: seq<Entry>, i: nat)
    requires KeysDistinct(table) && i < |table|
    ensures GetRegionByName(table, table[i].key) == Some(table[i].region)
    decreases i
  {
    if i > 0 {
      assert table[0].key != table[i].key;
      assert table[1..][i - 1] == table[i];
      LookupFindsEntry(table[1..], i - 1);
    }
  }

  function LobeIs(lobe: string): AalRegion -> bool {
    (r: AalRegion) => r.lobe == lobe
  }

  function HemisphereIs(hemisphere: string): AalRegion -> bool {
    (r: AalRegion) => r.hemisphere == hemisphere
  }

  /** `getRegionsByLobe`: the values whose lobe equals `lobe` exactly, case included, in table
      order. */
  function GetRegionsByLobe(table: seq<Entry>, lobe: string): (rs: seq<AalRegion>)
    ensures IsSubsequence(rs, Values(table))
    ensures forall r :: r in rs <==> r in Values(table) && r.lobe == lobe
  {
    Filter(Values(table), LobeIs(lobe))
  }

  /** `getRegionsByHemisphere`: the values whose hemisphere equals `hemisphere` exactly, in table
      order. */
  function GetRegionsByHemisphere(table: seq<Entry>, hemisphere: string): (rs: seq<AalRegion>)
    ensures IsSubsequence(rs, Values(table))
    ensures forall r :: r in rs <==> r in Values(table) && r.hemisphere == hemisphere
  {
    Filter(Values(table), HemisphereIs(hemisphere))
  }

  /** Every lobe of the table is spelt with a capital. */
  lemma LobesCapitalised()
    ensures forall i :: 0 <= i < |AalIdentities| ==> AalIdentities[i].lobe != "" && 'A' <= AalIdentities[i].lobe[0] <= 'Z'
  {
  }

  /** Every hemisphere of the table is spelt with a capital. */
  lemma HemispheresCapitalised()
    ensures forall i :: 0 <= i < |AalIdentities| ==> AalIdentities[i].hemisphere != "" && 'A' <= AalIdentities[i].hemisphere[0] <= 'Z'
  {
  }

  /** The table's lobes are the seven of the anatomical grouping, each used at least once, and its
      hemispheres are `Left` and `Right`. */
  lemma LobeAndHemisphereColumns()
    ensures |AalIdentities| == 24
    ensures forall i :: 0 <= i < |AalIdentities| ==>
      AalIdentities[i].lobe in {"Frontal", "Parietal", "Temporal", "Occipital", "Limbic", "Subcortical", "Cerebellum"}
      && AalIdentities[i].hemisphere in {"Left", "Right"}
    ensures AalIdentities[0].lobe == "Frontal" && AalIdentities[6].lobe == "Parietal"
      && AalIdentities[10].lobe == "Temporal" && AalIdentities[12].lobe == "Occipital"
      && AalIdentities[16].lobe == "Limbic" && AalIdentities[22].lobe == "Subcortical"
      && AalIdentities[23].lobe == "Cerebellum"
    ensures AalIdentities[0].hemisphere == "Left" && AalIdentities[1].hemisphere == "Right"
  {
  }

  /** `getAllLobes` over the table lists the seven lobes of the anatomical grouping. */
  lemma AalLobesListed(texts: seq<AalText>)
    ensures forall l :: l in GetAllLobes(Assemble(AalKeys, AalIdentities, texts)) <==>
      l in {"Frontal", "Parietal", "Temporal", "Occipital", "Limbic", "Subcortical", "Cerebellum"}
  {
    var table := Assemble(AalKeys, AalIdentities, texts);
    LobeAndHemisphereColumns();
    AllLobesProperties(table);
    assert table[0].region.lobe == "Frontal";
    assert table[6].region.lobe == "Parietal";
    assert table[10].region.lobe == "Temporal";
    assert table[12].region.lobe == "Occipital";
    assert table[16].region.lobe == "Limbic";
    assert table[22].region.lobe == "Subcortical";
    assert table[23].region.lobe == "Cerebellum";
  }

  /** `getAllHemispheres` over the table lists `Left` and `Right`. */
  lemma AalHemispheresListed(texts: seq<AalText>)
    ensures forall h :: h in GetAllHemispheres(Assemble(AalKeys, AalIdentities, texts)) <==> h in {"Left", "Right"}
  {
    var table := Assemble(AalKeys, AalIdentities, texts);
    LobeAndHemisphereColumns();
    AllHemispheresProperties(table);
    assert table[0].region.hemisphere == "Left";
    assert table[1].region.hemisphere == "Right";
  }

  /** The case matters here: the table spells its lobes and hemispheres with a capital, so a lobe
      or hemisphere asked for in lower case, as the Desikan-Killiany helpers accept it, finds
      nothing, whatever the free text. */
  lemma LobeFilterIsCaseSensitive(texts: seq<AalText>, lobe: string, hemisphere: string)
    requires lobe != "" && 'a' <= lobe[0] <= 'z'
    requires hemisphere != "" && 'a' <= hemisphere[0] <= 'z'
    ensures GetRegionsByLobe(Assemble(AalKeys, AalIdentities, texts), lobe) == []
    ensures GetRegionsByHemisphere(Assemble(AalKeys, AalIdentities, texts), hemisphere) == []
  {
    LobesCapitalised();
    HemispheresCapitalised();
    var vs := Values(Assemble(AalKeys, AalIdentities, texts));
    forall i | 0 <= i < |vs|
      ensures vs[i].lobe != lobe && vs[i].hemisphere != hemisphere
    {
      assert vs[i].lobe[0] != lobe[0] && vs[i].hemisphere[0] != hemisphere[0];
    }
  }

  /** Whether `searchRegions` keeps `r` for the already lower-cased query `q`: the name, short
      name, lobe, description or a function, lower-cased, contains `q`, or a keyword contains it
      as written. */
  predicate MatchesQuery(r: AalRegion, q: string) {
    || Contains(Lower(r.name), q)
    || Contains(Lower(r.shortName), q)
    || Contains(Lower(r.lobe), q)
    || Contains(Lower(r.description), q)
    || (exists f :: f in r.functions && Contains(Lower(f), q))
    || (exists k :: k in r.keywords && Contains(k, q))
  }

  function Matching(q: string): AalRegion -> bool {
    (r: AalRegion) => MatchesQuery(r, q)
  }

  /** `searchRegions`: the values matching the lower-cased query, in table order. */
  function SearchRegions(table: seq<Entry>, query: string): (rs: seq<AalRegion>)
    ensures IsSubsequence(rs, Values(table))
    ensures forall r :: r in rs <==> r in Values(table) && MatchesQuery(r, Lower(query))
  {
    Filter(Values(table), Matching(Lower(query)))
  }

  /** The query is lower-cased before matching, so its case never matters. */
  lemma SearchIgnoresQueryCase(table: seq<Entry>, query: string)
    ensures SearchRegions(table, query) == SearchRegions(table, Lower(query))
  {
    LowerIdempotent(query);
  }

  /** The empty query is contained in every name, so it returns every value. */
  lemma EmptySearchReturnsAll(table: seq<Entry>)
    ensures SearchRegions(table, "") == Values(table)
  {
    var vs := Values(table);
    forall i | 0 <= i < |vs|
      ensures Matching("")(vs[i])
    {
      assert Contains(Lower(vs[i].name), "");
    }
    FilterAll(vs, Matching(""));
  }

  /** Keywords are compared as written: a region known only by the keyword `Motor` is not found by
      the query `Motor`, whose lower-cased form `motor` is not contained in it. */
  lemma KeywordsAreNotLowerCased()
    ensures var r := AalRegion(0, "", "", "", "", "", "", [], ["Motor"]);
      !MatchesQuery(r, Lower("Motor")) && MatchesQuery(r, "Motor")
  {
    var r := AalRegion(0, "", "", "", "", "", "", [], ["Motor"]);
    assert Lower("Motor") == "motor";
    NotContainsChar("Motor", "motor", 'm');
    assert !Contains("", "motor");
    assert Contains("Motor", "Motor");
  }

  function LobeOf(r: AalRegion): string {
    r.lobe
  }

  function HemisphereOf(r: AalRegion): string {
    r.hemisphere
  }

  /** `getAllLobes`: the lobes of the values through a `Set`. */
  function GetAllLobes(table: seq<Entry>): seq<string> {
    Dedup(Map(Values(table), LobeOf))
  }

  /** `getAllHemispheres`: the hemispheres of the values through a `Set`. */
  function GetAllHemispheres(table: seq<Entry>): seq<string> {
    Dedup(Map(Values(table), HemisphereOf))
  }

  /** The lobes listed are exactly those of the values, each once, in order of first appearance. */
  lemma AllLobesProperties(table: seq<Entry>)
    ensures Distinct(GetAllLobes(table))
    ensures forall l :: l in GetAllLobes(table) <==> exists i :: 0 <= i < |table| && table[i].region.lobe == l
    ensures var ls := Map(Values(table), LobeOf);
      forall i, j :: 0 <= i < j < |GetAllLobes(table)| ==> IndexOf(ls, GetAllLobes(table)[i]) < IndexOf(ls, GetAllLobes(table)[j])
  {
    var ls := Map(Values(table), LobeOf);
    DedupKeepsFirstAppearanceOrder(ls);
    forall l | l in GetAllLobes(table)
      ensures exists i :: 0 <= i < |table| && table[i].region.lobe == l
    {
      var i :| 0 <= i < |ls| && ls[i] == l;
      assert table[i].region.lobe == l;
    }
  }

  /** The same for the hemispheres. */
  lemma AllHemispheresProperties(table: seq<Entry>)
    ensures Distinct(GetAllHemispheres(table))
    ensures forall h :: h in GetAllHemispheres(table) <==> exists i :: 0 <= i < |table| && table[i].region.hemisphere == h
    ensures var hs := Map(Values(table), HemisphereOf);
      forall i, j :: 0 <= i < j < |GetAllHemispheres(table)| ==> IndexOf(hs, GetAllHemispheres(table)[i]) < IndexOf(hs, GetAllHemispheres(table)[j])
  {
    var hs := Map(Values(table), HemisphereOf);
    DedupKeepsFirstAppearanceOrder(hs);
    forall h | h in GetAllHemispheres(table)
      ensures exists i :: 0 <= i < |table| && table[i].region.hemisphere == h
    {
      var i :| 0 <= i < |hs| && hs[i] == h;
      assert table[i].region.hemisphere == h;
    }
  }
}
