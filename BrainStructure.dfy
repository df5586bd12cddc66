/** The two-level structure of `src/data/brainStructure.js`: six main regions, each with its
    parts, and the lookup, listing and search helpers over it. The object is modelled as the
    sequence of its entries in source order, which is the order `Object.values` and `for ... in`
    visit them in because no key is integer-like. */
module BrainStructure {
  import opened Wrappers
  import opened JsText
  import opened JsArray

  /** A part of a main region. Positions and sizes, which no helper reads, are not part of the
      model. */
  datatype Part = Part(
    id: string, name: string, kind: string, partOf: string, color: string,
    description: string, functions: seq<string>)

  /** A main region (`type` is `kind` here). `parts` is `None` for a region without a `parts`
      array; every region of the table has one. */
  datatype MainRegion = MainRegion(
    id: string, name: string, kind: string, color: string, isMainRegion: bool,
    description: string, parts: Option<seq<Part>>)

  /** A key of `brainStructure` and its value. */
  datatype StructureEntry = StructureEntry(key: string, region: MainRegion)

  /** The identifying columns of a part and of a main region with its parts'. */
  datatype PartIdentity = PartIdentity(id: string, name: string, kind: string, partOf: string, color: string)
  datatype RegionIdentity = RegionIdentity(
    id: string, name: string, kind: string, color: string, isMainRegion: bool, parts: seq<PartIdentity>)

  /** The free-text columns of a part and of a main region with its parts'; only the search reads
      them. */
  datatype PartText = PartText(description: string, functions: seq<string>)
  datatype RegionText = RegionText(description: string, parts: seq<PartText>)

  function AssemblePart(d: PartIdentity, ts: seq<PartText>, j: nat): Part {
    var t := if j < |ts| then ts[j] else PartText("", []);
    Part(d.id, d.name, d.kind, d.partOf, d.color, t.description, t.functions)
  }

  /** The parts of one region from their two column groups, paired by position. */
  function AssembleParts(ds: seq<PartIdentity>, ts: seq<PartText>): (ps: seq<Part>)
    ensures |ps| == |ds|
    ensures forall j :: 0 <= j < |ds| ==>
      var d, p := ds[j], ps[j];
      p.id == d.id && p.name == d.name && p.kind == d.kind && p.partOf == d.partOf && p.color == d.color
  {
    seq(|ds|, j requires 0 <= j < |ds| => AssemblePart(ds[j], ts, j))
  }

  /** The entries of `brainStructure` from its keys and two column groups, paired by position; an
      entry without a text gets empty text. The columns are kept apart so that facts about the
      keys and identifying columns can be proved without the free text in view. */
  function Assemble(keys: seq<string>, ids: seq<RegionIdentity>, texts: seq<RegionText>): (table: seq<StructureEntry>)
    ensures |table| == if |keys| <= |ids| then |keys| else |ids|
    ensures forall i :: 0 <= i < |table| ==>
      var d, r := ids[i], table[i].region;
      && table[i].key == keys[i]
      && r.id == d.id && r.name == d.name && r.kind == d.kind && r.color == d.color
      && r.isMainRegion == d.isMainRegion && r.parts.Some? && |r.parts.value| == |d.parts|
      && forall j :: 0 <= j < |d.parts| ==>
        var pd, p := d.parts[j], r.parts.value[j];
        p.id == pd.id && p.name == pd.name && p.kind == pd.kind && p.partOf == pd.partOf && p.color == pd.color
  {
    var n := if |keys| <= |ids| then |keys| else |ids|;
    seq(n, i requires 0 <= i < n =>
      var d := ids[i];
      var t := if i < |texts| then texts[i] else RegionText("", []);
      StructureEntry(keys[i], MainRegion(d.id, d.name, d.kind, d.color, d.isMainRegion,
        t.description, Some(AssembleParts(d.parts, t.parts)))))
  }

  /** `brainStructure`, in source order. */
  const BrainStructureData: seq<StructureEntry> := Assemble(StructureKeys, StructureIdentities, StructureTexts)

  /** The keys of `brainStructure`, in source order. */
  const StructureKeys: seq<string> := [
    "cerebrum", "limbic_system", "basal_ganglia", "midbrain", "hindbrain", "brainstem"
  ]

  /** The identifying columns of `brainStructure`, in the same order. */
  const StructureIdentities: seq<RegionIdentity> := [
    RegionIdentity("cerebrum", "Cerebrum", "REGION", "#FF6B6B", true, [
        PartIdentity("frontal_lobe", "Frontal Lobe", "PART", "Cerebrum", "#FF5252"),
        PartIdentity("parietal_lobe", "Parietal Lobe", "PART", "Cerebrum", "#4ECDC4"),
        PartIdentity("occipital_lobe", "Occipital Lobe", "PART", "Cerebrum", "#9B59B6"),
        PartIdentity("temporal_lobe", "Temporal Lobe", "PART", "Cerebrum", "#95E1D3"),
        PartIdentity("corpus_callosum", "Corpus Callosum", "PART", "Cerebrum", "#E8E8E8"),
        PartIdentity("cerebral_cortex", "Cerebral Cortex", "PART", "Cerebrum", "#FFAAAA")]),
    RegionIdentity("limbic_system", "Limbic System", "REGION", "#F39C12", true, [
        PartIdentity("hippocampus", "Hippocampus", "PART", "Limbic System", "#F39C12"),
        PartIdentity("amygdala", "Amygdala", "PART", "Limbic System", "#E67E22"),
        PartIdentity("thalamus", "Thalamus", "PART", "Limbic System", "#D68910"),
        PartIdentity("hypothalamus", "Hypothalamus", "PART", "Limbic System", "#CA6F1E")]),
    RegionIdentity("basal_ganglia", "Basal Ganglia", "REGION", "#8E44AD", true, [
        PartIdentity("caudate_nucleus", "Caudate Nucleus", "PART", "Basal Ganglia", "#9B59B6"),
        PartIdentity("putamen", "Putamen", "PART", "Basal Ganglia", "#8E44AD"),
        PartIdentity("globus_pallidus", "Globus Pallidus", "PART", "Basal Ganglia", "#7D3C98"),
        PartIdentity("substantia_nigra", "Substantia Nigra", "PART", "Basal Ganglia", "#5B2C6F"),
        PartIdentity("subthalamic_nucleus", "Subthalamic Nucleus", "PART", "Basal Ganglia", "#6C3483")]),
    RegionIdentity("midbrain", "Midbrain", "REGION", "#E74C3C", true, [
        PartIdentity("colliculi", "Colliculi (Superior and Inferior)", "PART", "Midbrain", "#E74C3C"),
        PartIdentity("reward_neurons", "Clusters of neurons important for reward and mood", "PART", "Midbrain", "#C0392B")]),
    RegionIdentity("hindbrain", "Hindbrain", "REGION", "#27AE60", true, [
        PartIdentity("cerebellum", "Cerebellum", "PART", "Hindbrain", "#FCE38A"),
        PartIdentity("pons", "Pons", "PART", "Hindbrain", "#2ECC71"),
        PartIdentity("medulla_oblongata", "Medulla Oblongata", "PART", "Hindbrain", "#27AE60")]),
    RegionIdentity("brainstem", "Brainstem", "REGION", "#AA96DA", true, [
        PartIdentity("brainstem_midbrain", "Midbrain", "PART", "Brainstem", "#E74C3C"),
        PartIdentity("brainstem_pons", "Pons", "PART", "Brainstem", "#2ECC71"),
        PartIdentity("brainstem_medulla", "Medulla Oblongata", "PART", "Brainstem", "#27AE60")])
  ]

  /** The free-text columns of `brainStructure`, in the same order. */
  const StructureTexts: seq<RegionText> := [
    // cerebrum
    RegionText(
      "The largest part of the brain responsible for higher cognitive functions, sensory processing, and voluntary movement.", [
        // frontal_lobe
        PartText(
          "Controls executive functions, decision-making, planning, problem-solving, and voluntary movement.",
          ["Executive function and decision-making", "Motor control and planning", "Speech production (Broca's area)", "Personality and behavior", "Problem-solving and reasoning"]),
        // parietal_lobe
        PartText(
          "Processes sensory information including touch, temperature, pain, and spatial awareness.",
          ["Touch and pressure sensation", "Spatial awareness and navigation", "Integration of sensory information", "Mathematical reasoning", "Body awareness and proprioception"]),
        // occipital_lobe
        PartText(
          "Primary visual processing center of the brain.",
          ["Visual processing and perception", "Color recognition", "Motion detection", "Depth perception", "Visual memory"]),
        // temporal_lobe
        PartText(
          "Processes auditory information, memory formation, and language comprehension.",
          ["Auditory processing", "Memory formation and retrieval", "Language comprehension (Wernicke's area)", "Facial recognition", "Emotional processing"]),
        // corpus_callosum
        PartText(
          "Large bundle of nerve fibers connecting the left and right cerebral hemispheres.",
          ["Communication between brain hemispheres", "Integration of sensory and motor information", "Coordination of bilateral movements", "Transfer of learning and memory"]),
        // cerebral_cortex
        PartText(
          "The outer layer of the cerebrum responsible for higher-order thinking.",
          ["Conscious thought and reasoning", "Sensory perception", "Voluntary movement control", "Language processing", "Memory and learning"])]),
    // limbic_system
    RegionText(
      "A set of structures involved in emotion, behavior, motivation, memory, and olfaction.", [
        // hippocampus
        PartText(
          "Critical for memory formation, spatial navigation, and learning.",
          ["Memory formation and consolidation", "Spatial navigation and orientation", "Contextual learning", "Emotional memory", "Pattern recognition"]),
        // amygdala
        PartText(
          "Processes emotions, especially fear, and emotional memories.",
          ["Fear and threat detection", "Emotional processing and regulation", "Emotional memory formation", "Social and sexual behavior", "Reward processing"]),
        // thalamus
        PartText(
          "Major relay station for sensory and motor signals to the cortex.",
          ["Sensory information relay", "Motor signal relay", "Consciousness and alertness", "Sleep-wake regulation", "Attention and awareness"]),
        // hypothalamus
        PartText(
          "Regulates vital functions including temperature, hunger, thirst, and hormones.",
          ["Body temperature regulation", "Hunger and thirst control", "Hormone production and release", "Sleep-wake cycles (circadian rhythm)", "Emotional responses", "Autonomic nervous system control"])]),
    // basal_ganglia
    RegionText(
      "Group of structures involved in motor control, procedural learning, and habit formation.", [
        // caudate_nucleus
        PartText(
          "Involved in voluntary movement control and learning.",
          ["Voluntary movement control", "Goal-directed behavior", "Cognitive flexibility", "Procedural learning", "Working memory"]),
        // putamen
        PartText(
          "Regulates movement and influences learning.",
          ["Motor control and coordination", "Motor learning", "Movement preparation", "Habit formation", "Reward-based learning"]),
        // globus_pallidus
        PartText(
          "Regulates voluntary movement by influencing motor circuits.",
          ["Regulation of voluntary movement", "Motor control refinement", "Muscle tone regulation", "Movement inhibition", "Posture control"]),
        // substantia_nigra
        PartText(
          "Produces dopamine and is crucial for movement and reward.",
          ["Dopamine production", "Movement control", "Reward processing", "Motor planning", "Eye movement control"]),
        // subthalamic_nucleus
        PartText(
          "Regulates motor function and is a target for Parkinson's disease treatment.",
          ["Motor control regulation", "Movement inhibition", "Action selection", "Impulse control", "Target for deep brain stimulation"])]),
    // midbrain
    RegionText(
      "Connects the hindbrain and forebrain, involved in vision, hearing, motor control, and arousal.", [
        // colliculi
        PartText(
          "Superior processes visual information; Inferior processes auditory information.",
          ["Visual reflex control (superior)", "Auditory reflex control (inferior)", "Eye movement coordination", "Head orientation to stimuli", "Startle response"]),
        // reward_neurons
        PartText(
          "Neural clusters in the midbrain involved in reward, motivation, and mood regulation.",
          ["Reward processing", "Motivation and drive", "Mood regulation", "Pleasure and satisfaction", "Addiction pathways"])]),
    // hindbrain
    RegionText(
      "Controls vital autonomic functions and motor coordination.", [
        // cerebellum
        PartText(
          "Coordinates movement, balance, and motor learning.",
          ["Motor coordination", "Balance and posture", "Motor learning and adaptation", "Procedural memory", "Timing and precision of movements", "Cognitive processing"]),
        // pons
        PartText(
          "Relays signals between the cerebrum and cerebellum; regulates sleep and breathing.",
          ["Signal relay between brain regions", "Sleep regulation", "Breathing control", "Facial sensation and movement", "Balance and equilibrium"]),
        // medulla_oblongata
        PartText(
          "Controls vital autonomic functions like breathing, heart rate, and blood pressure.",
          ["Heart rate regulation", "Breathing control", "Blood pressure regulation", "Swallowing and vomiting reflexes", "Coughing and sneezing reflexes"])]),
    // brainstem
    RegionText(
      "Connects the brain to the spinal cord and controls vital life functions.", [
        // brainstem_midbrain
        PartText(
          "Upper portion of the brainstem involved in motor control and sensory processing.",
          ["Eye movement control", "Visual and auditory processing", "Motor control", "Arousal and alertness", "Temperature regulation"]),
        // brainstem_pons
        PartText(
          "Middle portion of the brainstem that relays information.",
          ["Information relay", "Sleep and arousal", "Breathing regulation", "Facial sensation", "Taste sensation"]),
        // brainstem_medulla
        PartText(
          "Lower portion of the brainstem controlling vital functions.",
          ["Cardiovascular control", "Respiratory control", "Reflexes (cough, sneeze, swallow)", "Autonomic functions", "Cranial nerve nuclei"])])
  ]

  /** The table's keys, in order (`Object.keys`). */
  function Keys(table: seq<StructureEntry>): (ks: seq<string>)
    ensures |ks| == |table| && forall i :: 0 <= i < |table| ==> ks[i] == table[i].key
  {
    Map(table, (e: StructureEntry) => e.key)
  }

  /** The table's values, in order (`Object.values`). */
  function Values(table: seq<StructureEntry>): (rs: seq<MainRegion>)
    ensures |rs| == |table| && forall i :: 0 <= i < |table| ==> rs[i] == table[i].region
  {
    Map(table, (e: StructureEntry) => e.region)
  }

  /** No two entries share a key, as in any object literal without repeated keys. */
  predicate KeysDistinct(table: seq<StructureEntry>) {
    forall i, j :: 0 <= i < j < |table| ==> table[i].key != table[j].key
  }

  /** Entry `i` is the first with key `key`. */
  predicate FirstKeyAt(table: seq<StructureEntry>, key: string, i: nat) {
    i < |table| && table[i].key == key && forall k :: 0 <= k < i ==> table[k].key != key
  }

  function KeyIs(key: string): StructureEntry -> bool {
    (e: StructureEntry) => e.key == key
  }

  /** `brainStructure[key]`: the value of the first entry with that key, `None` (`undefined`)
      when there is none. */
  function Lookup(table: seq<StructureEntry>, key: string): (r: Option<MainRegion>)
    ensures r.Some? <==> key in Keys(table)
    ensures r.Some? ==> exists i: nat :: FirstKeyAt(table, key, i) && table[i].region == r.value
  {
    match FindIndex(table, KeyIs(key))
    case Some(i) =>
      assert Keys(table)[i] == key;
      assert FirstKeyAt(table, key, i);
      Some(table[i].region)
    case None =>
      assert forall i :: 0 <= i < |table| ==> Keys(table)[i] != key;
      None
  }

  /** With distinct keys, looking up an entry's key gives that entry's value. */
  lemma {:induction false} LookupFindsEntry(table: seq<StructureEntry>, i: nat)
    requires KeysDistinct(table) && i < |table|
    ensures Lookup(table, table[i].key) == Some(table[i].region)
    decreases i
  {
    if i > 0 {
      assert table[0].key != table[i].key;
      assert table[1..][i - 1] == table[i];
      LookupFindsEntry(table[1..], i - 1);
    }
  }

  /** `getMainRegions`: the values whose type is `'REGION'`, in table order. */
  function GetMainRegions(table: seq<StructureEntry>): (rs: seq<MainRegion>)
    ensures IsSubsequence(rs, Values(table))
    ensures forall r :: r in rs <==> r in Values(table) && r.kind == "REGION"
  {
    Filter(Values(table), (r: MainRegion) => r.kind == "REGION")
  }

  /** A region's parts, `[]` when it has no `parts` array. */
  function PartsOf(r: MainRegion): seq<Part> {
    r.parts.GetOr([])
  }

  /** `getParts`: `brainStructure[id]?.parts || []`. */
  function GetParts(table: seq<StructureEntry>, id: string): (ps: seq<Part>)
    ensures id !in Keys(table) ==> ps == []
    ensures id in Keys(table) ==> exists i: nat :: FirstKeyAt(table, id, i) && ps == PartsOf(table[i].region)
  {
    match Lookup(table, id)
    case Some(r) => PartsOf(r)
    case None => []
  }

  /** Every part has type `'PART'` and names its own main region in `partOf`. */
  predicate PartsWellFormed(table: seq<StructureEntry>) {
    forall i, j :: 0 <= i < |table| && 0 <= j < |PartsOf(table[i].region)| ==>
      PartsOf(table[i].region)[j].kind == "PART" && PartsOf(table[i].region)[j].partOf == table[i].region.name
  }

  /** In a well-formed table, the parts `getParts` returns all belong to the region looked up. */
  lemma PartsBelongToParent(table: seq<StructureEntry>, id: string)
    requires PartsWellFormed(table)
    ensures forall p :: p in GetParts(table, id) ==> p.kind == "PART" && p.partOf == Lookup(table, id).value.name
  {
    var r := Lookup(table, id);
    if r.Some? {
      var i: nat :| FirstKeyAt(table, id, i) && table[i].region == r.value;
      assert GetParts(table, id) == PartsOf(table[i].region);
    }
  }

  /** What `getRegionById` returns: a main region as stored, or a part copied with the id of the
      region it was found in as `parentRegion`. */
  datatype Found = FoundRegion(region: MainRegion) | FoundPart(part: Part, parentRegion: string)

  function IdIs(id: string): Part -> bool {
    (p: Part) => p.id == id
  }

  predicate HasPartWithId(r: MainRegion, id: string) {
    exists j :: 0 <= j < |PartsOf(r)| && PartsOf(r)[j].id == id
  }

  /** Region `i` is the first with a part of that id. */
  predicate FirstRegionWithPart(regions: seq<MainRegion>, id: string, i: nat) {
    i < |regions| && HasPartWithId(regions[i], id) && forall k :: 0 <= k < i ==> !HasPartWithId(regions[k], id)
  }

  /** `found` is the first part with that id in region `i`, the first region that has one. */
  predicate FoundAt(regions: seq<MainRegion>, id: string, i: nat, found: Found) {
    && FirstRegionWithPart(regions, id, i)
    && found.FoundPart?
    && found.parentRegion == regions[i].id
    && Find(PartsOf(regions[i]), IdIs(id)) == Some(found.part)
  }

  /** `parts.find` succeeds in the region. */
  function FindsPart(id: string): MainRegion -> bool {
    (r: MainRegion) => Find(PartsOf(r), IdIs(id)).Some?
  }

  lemma FindsPartIff(r: MainRegion, id: string)
    ensures FindsPart(id)(r) <==> HasPartWithId(r, id)
  {
  }

  /** The part search of `getRegionById`: the first region, in order, whose `parts.find`
      succeeds, and the part it finds, tagged with the region's id. */
  function FindPart(regions: seq<MainRegion>, id: string): (r: Option<Found>)
    ensures r.None? <==> forall i :: 0 <= i < |regions| ==> !HasPartWithId(regions[i], id)
    ensures r.Some? ==> r.value.FoundPart? && r.value.part.id == id
    ensures r.Some? ==> exists i: nat :: FoundAt(regions, id, i, r.value)
  {
    match FindIndex(regions, FindsPart(id))
    case Some(i) =>
      FindsPartIff(regions[i], id);
      assert forall k :: 0 <= k < i ==> !FindsPart(id)(regions[k]);
      FirstRegionFromIndex(regions, id, i);
      var found := FoundPart(Find(PartsOf(regions[i]), IdIs(id)).value, regions[i].id);
      assert FoundAt(regions, id, i, found);
      Some(found)
    case None =>
      forall i | 0 <= i < |regions|
        ensures !HasPartWithId(regions[i], id)
      {
        FindsPartIff(regions[i], id);
      }
      None
  }

  lemma FirstRegionFromIndex(regions: seq<MainRegion>, id: string, i: nat)
    requires i < |regions| && FindsPart(id)(regions[i])
    requires forall k :: 0 <= k < i ==> !FindsPart(id)(regions[k])
    ensures FirstRegionWithPart(regions, id, i)
  {
    FindsPartIff(regions[i], id);
    forall k | 0 <= k < i
      ensures !HasPartWithId(regions[k], id)
    {
      FindsPartIff(regions[k], id);
    }
  }

  /** The part search finds the first part with that id in region order, then part order. */
  lemma FindPartFirst(regions: seq<MainRegion>, id: string, i: nat, j: nat)
    requires i < |regions| && j < |PartsOf(regions[i])| && PartsOf(regions[i])[j].id == id
    requires forall k :: 0 <= k < i ==> !HasPartWithId(regions[k], id)
    requires forall l :: 0 <= l < j ==> PartsOf(regions[i])[l].id != id
    ensures FindPart(regions, id) == Some(FoundPart(PartsOf(regions[i])[j], regions[i].id))
  {
    FindPartAt(regions, id, i);
    assert IdIs(id)(PartsOf(regions[i])[j]);
  }

  /** When no region before `i` has a part with that id, the search answers the part
      `parts.find` finds in region `i`, if any. */
  lemma FindPartAt(regions: seq<MainRegion>, id: string, i: nat)
    requires i < |regions| && forall k :: 0 <= k < i ==> !HasPartWithId(regions[k], id)
    ensures FindsPart(id)(regions[i]) ==>
      FindPart(regions, id) == Some(FoundPart(Find(PartsOf(regions[i]), IdIs(id)).value, regions[i].id))
  {
    forall k | 0 <= k < i
      ensures !FindsPart(id)(regions[k])
    {
      FindsPartIff(regions[k], id);
    }
    if FindsPart(id)(regions[i]) {
      var r := FindIndex(regions, FindsPart(id));
      assert r.Some? && r.value <= i;
    }
  }

  /** `getRegionById`: a top-level key wins; otherwise the first part with that id, in region
      order, tagged with its region's id; `None` (`null`) when neither exists. */
  function RegionById(table: seq<StructureEntry>, id: string): (r: Option<Found>)
    ensures id in Keys(table) ==> r.Some? && r.value.FoundRegion? && Lookup(table, id) == Some(r.value.region)
    ensures id !in Keys(table) ==> r == FindPart(Values(table), id)
    ensures r.None? <==> id !in Keys(table) && forall i :: 0 <= i < |table| ==> !HasPartWithId(table[i].region, id)
  {
    match Lookup(table, id)
    case Some(region) => Some(FoundRegion(region))
    case None => FindPart(Values(table), id)
  }

  /** `getRegionById` as written: the key lookup, then a loop over the regions that stops at the
      first one whose `parts.find` succeeds. */
  method GetRegionById(table: seq<StructureEntry>, id: string) returns (found: Option<Found>)
    ensures found == RegionById(table, id)
  {
    var direct := Lookup(table, id);
    if direct.Some? {
      return Some(FoundRegion(direct.value));
    }
    var regions := Values(table);
    for i := 0 to |regions|
      invariant forall k :: 0 <= k < i ==> !HasPartWithId(regions[k], id)
    {
      var mainRegion := regions[i];
      FindPartAt(regions, id, i);
      FindsPartIff(mainRegion, id);
      if mainRegion.parts.Some? {
        var part := Find(mainRegion.parts.value, IdIs(id));
        if part.Some? {
          return Some(FoundPart(part.value, mainRegion.id));
        }
      }
    }
    return None;
  }

  /** A part as `getAllRegionsAndParts` and `searchBrain` list it, with its region's id and name. */
  datatype TaggedPart = TaggedPart(part: Part, parentRegion: string, parentName: string)

  /** An element of the flattened listing. */
  datatype Item = RegionItem(region: MainRegion) | PartItem(tagged: TaggedPart)

  /** A region's parts, each tagged with the region. */
  function TagParts(r: MainRegion): (ts: seq<TaggedPart>)
    ensures |ts| == |PartsOf(r)|
    ensures forall j :: 0 <= j < |ts| ==> ts[j] == TaggedPart(PartsOf(r)[j], r.id, r.name)
  {
    Map(PartsOf(r), (p: Part) => TaggedPart(p, r.id, r.name))
  }

  function AsPartItem(t: TaggedPart): Item {
    PartItem(t)
  }

  function AsRegionItem(r: MainRegion): Item {
    RegionItem(r)
  }

  /** A region followed by its tagged parts. */
  function Block(r: MainRegion): seq<Item> {
    [RegionItem(r)] + Map(TagParts(r), AsPartItem)
  }

  /** The listing of `getAllRegionsAndParts`: the blocks of the regions, in order. */
  function Flatten(rs: seq<MainRegion>): seq<Item>
    decreases |rs|
  {
    if rs == [] then [] else Flatten(rs[..|rs| - 1]) + Block(rs[|rs| - 1])
  }

  /** The number of parts of the regions. */
  function TotalParts(rs: seq<MainRegion>): nat
    decreases |rs|
  {
    if rs == [] then 0 else TotalParts(rs[..|rs| - 1]) + |PartsOf(rs[|rs| - 1])|
  }

  /** The tagged parts of the regions, in order. */
  function AllTaggedParts(rs: seq<MainRegion>): seq<TaggedPart>
    decreases |rs|
  {
    if rs == [] then [] else AllTaggedParts(rs[..|rs| - 1]) + TagParts(rs[|rs| - 1])
  }

  /** The listing has one element per region and one per part. */
  lemma {:induction false} FlattenLength(rs: seq<MainRegion>)
    ensures |Flatten(rs)| == |rs| + TotalParts(rs)
    decreases |rs|
  {
    if rs != [] {
      FlattenLength(rs[..|rs| - 1]);
    }
  }

  lemma {:induction false} FlattenAppend(a: seq<MainRegion>, b: seq<MainRegion>)
    ensures Flatten(a + b) == Flatten(a) + Flatten(b)
    decreases |b|
  {
    if b == [] {
      assert a + b == a;
    } else {
      var ab, init, last := a + b, b[..|b| - 1], b[|b| - 1];
      assert ab[..|ab| - 1] == a + init;
      assert ab[|ab| - 1] == last;
      FlattenAppend(a, init);
      assert Flatten(ab) == Flatten(a + init) + Block(last);
    }
  }

  /** The listing of the first `i + 1` regions extends that of the first `i` by one block. */
  lemma FlattenStep(rs: seq<MainRegion>, i: nat)
    requires i < |rs|
    ensures Flatten(rs[..i + 1]) == Flatten(rs[..i]) + Block(rs[i])
  {
    assert rs[..i + 1][..i] == rs[..i];
  }

  /** The listing around the block of region `i`. */
  lemma FlattenSplit(rs: seq<MainRegion>, i: nat)
    requires i < |rs|
    ensures Flatten(rs) == Flatten(rs[..i]) + Block(rs[i]) + Flatten(rs[i + 1..])
  {
    assert rs == rs[..i + 1] + rs[i + 1..];
    FlattenAppend(rs[..i + 1], rs[i + 1..]);
    FlattenStep(rs, i);
  }

  /** A block is its region followed by its tagged parts. */
  lemma BlockLayout(r: MainRegion)
    ensures |Block(r)| == 1 + |PartsOf(r)| && Block(r)[0] == RegionItem(r)
    ensures forall j :: 0 <= j < |PartsOf(r)| ==> Block(r)[1 + j] == PartItem(TaggedPart(PartsOf(r)[j], r.id, r.name))
  {
    var tagged := TagParts(r);
    var items := Map(tagged, AsPartItem);
    assert Block(r) == [RegionItem(r)] + items;
    forall j | 0 <= j < |PartsOf(r)|
      ensures Block(r)[1 + j] == PartItem(TaggedPart(PartsOf(r)[j], r.id, r.name))
    {
      assert Block(r)[1 + j] == items[j] == AsPartItem(tagged[j]);
    }
  }

  /** `all` holds region `r` at `start`, immediately followed by its parts, each tagged with the
      region's id and name. */
  predicate BlockAt(all: seq<Item>, start: nat, r: MainRegion) {
    && start + 1 + |PartsOf(r)| <= |all|
    && all[start] == RegionItem(r)
    && forall j :: 0 <= j < |PartsOf(r)| ==> all[start + 1 + j] == PartItem(TaggedPart(PartsOf(r)[j], r.id, r.name))
  }

  /** A block placed after `pre` in a listing `pre + Block(r) + post`. */
  lemma BlockInListing(all: seq<Item>, pre: seq<Item>, post: seq<Item>, r: MainRegion)
    requires all == pre + Block(r) + post
    ensures BlockAt(all, |pre|, r)
  {
    BlockLayout(r);
    forall j | 0 <= j < |PartsOf(r)|
      ensures all[|pre| + 1 + j] == PartItem(TaggedPart(PartsOf(r)[j], r.id, r.name))
    {
      assert all[|pre| + 1 + j] == Block(r)[1 + j];
    }
  }

  /** In the listing, each region is immediately followed by its tagged parts, and the block of
      region `i` starts after the blocks of the regions before it. */
  lemma FlattenLayout(rs: seq<MainRegion>, i: nat)
    requires i < |rs|
    ensures BlockAt(Flatten(rs), |Flatten(rs[..i])|, rs[i])
  {
    FlattenSplit(rs, i);
    BlockInListing(Flatten(rs), Flatten(rs[..i]), Flatten(rs[i + 1..]), rs[i]);
  }

  /** `getAllRegionsAndParts` as written: push each region, then its tagged parts. */
  method GetAllRegionsAndParts(table: seq<StructureEntry>) returns (all: seq<Item>)
    ensures all == Flatten(Values(table))
  {
    var regions := Values(table);
    all := [];
    for i := 0 to |regions|
      invariant all == Flatten(regions[..i])
    {
      assert regions[..i + 1][..i] == regions[..i];
      var mainRegion := regions[i];
      all := all + [RegionItem(mainRegion)];
      if mainRegion.parts.Some? {
        all := all + Map(mainRegion.parts.value, (p: Part) => PartItem(TaggedPart(p, mainRegion.id, mainRegion.name)));
      }
      assert all == Flatten(regions[..i]) + Block(mainRegion);
    }
    assert regions[..|regions|] == regions;
  }

  /** The search tests of `searchBrain`; `q` is the lower-cased query. */
  predicate RegionMatches(r: MainRegion, q: string) {
    Contains(Lower(r.name), q) || Contains(Lower(r.description), q)
  }

  predicate PartMatches(p: Part, q: string) {
    || Contains(Lower(p.name), q)
    || Contains(Lower(p.description), q)
    || (exists f :: f in p.functions && Contains(Lower(f), q))
  }

  function RegionHit(q: string): MainRegion -> bool {
    (r: MainRegion) => RegionMatches(r, q)
  }

  function PartHit(q: string): TaggedPart -> bool {
    (t: TaggedPart) => PartMatches(t.part, q)
  }

  /** What `searchBrain` returns. */
  datatype SearchResults = SearchResults(regions: seq<MainRegion>, parts: seq<TaggedPart>)

  /** `searchBrain` as written: one pass over the regions, testing each region and, whether or not
      it matched, each of its parts. */
  method SearchBrain(table: seq<StructureEntry>, query: string) returns (results: SearchResults)
    ensures results.regions == Filter(Values(table), RegionHit(Lower(query)))
    ensures results.parts == Filter(AllTaggedParts(Values(table)), PartHit(Lower(query)))
  {
    var lowerQuery := Lower(query);
    var regions := Values(table);
    results := SearchResults([], []);
    for i := 0 to |regions|
      invariant results.regions == Filter(regions[..i], RegionHit(lowerQuery))
      invariant results.parts == Filter(AllTaggedParts(regions[..i]), PartHit(lowerQuery))
    {
      results := SearchRegion(regions, i, lowerQuery, results);
    }
    assert regions[..|regions|] == regions;
  }

  /** The regions found among the first `i + 1`: those among the first `i`, then region `i`
      when it matches. */
  lemma RegionSearchStep(regions: seq<MainRegion>, i: nat, q: string)
    requires i < |regions|
    ensures Filter(regions[..i + 1], RegionHit(q))
         == Filter(regions[..i], RegionHit(q)) + if RegionMatches(regions[i], q) then [regions[i]] else []
  {
    assert regions[..i + 1] == regions[..i] + [regions[i]];
    FilterPush(regions[..i], regions[i], RegionHit(q));
  }

  /** The parts found among the first `i + 1` regions: those among the first `i`, then the
      matching parts of region `i`. */
  lemma PartSearchStep(regions: seq<MainRegion>, i: nat, q: string)
    requires i < |regions|
    ensures Filter(AllTaggedParts(regions[..i + 1]), PartHit(q))
         == Filter(AllTaggedParts(regions[..i]), PartHit(q)) + Filter(TagParts(regions[i]), PartHit(q))
  {
    assert regions[..i + 1][..i] == regions[..i];
    FilterAppend(AllTaggedParts(regions[..i]), TagParts(regions[i]), PartHit(q));
  }

  /** One iteration of the outer loop of `searchBrain`: region `i`, then its parts. */
  method SearchRegion(regions: seq<MainRegion>, i: nat, lowerQuery: string, results: SearchResults)
    returns (next: SearchResults)
    requires i < |regions|
    requires results.regions == Filter(regions[..i], RegionHit(lowerQuery))
    requires results.parts == Filter(AllTaggedParts(regions[..i]), PartHit(lowerQuery))
    ensures next.regions == Filter(regions[..i + 1], RegionHit(lowerQuery))
    ensures next.parts == Filter(AllTaggedParts(regions[..i + 1]), PartHit(lowerQuery))
  {
    var region := regions[i];
    RegionSearchStep(regions, i, lowerQuery);
    PartSearchStep(regions, i, lowerQuery);
    next := results;
    if RegionMatches(region, lowerQuery) {
      next := next.(regions := next.regions + [region]);
    }
    next := SearchRegionParts(region, lowerQuery, next);
  }

  /** The tagged parts found among the first `j + 1` parts of a region: those among the first
      `j`, then part `j` when it matches. */
  lemma TaggedSearchStep(region: MainRegion, j: nat, q: string)
    requires j < |PartsOf(region)|
    ensures var t := TaggedPart(PartsOf(region)[j], region.id, region.name);
      Filter(TagParts(region)[..j + 1], PartHit(q))
        == Filter(TagParts(region)[..j], PartHit(q)) + if PartMatches(t.part, q) then [t] else []
  {
    var tagged := TagParts(region);
    assert tagged[..j + 1] == tagged[..j] + [tagged[j]];
    FilterPush(tagged[..j], tagged[j], PartHit(q));
  }

  /** The inner loop of `searchBrain` over one region's parts. */
  method SearchRegionParts(region: MainRegion, lowerQuery: string, results: SearchResults)
    returns (next: SearchResults)
    ensures next.regions == results.regions
    ensures next.parts == results.parts + Filter(TagParts(region), PartHit(lowerQuery))
  {
    var found := MatchingParts(region, lowerQuery);
    next := results.(parts := results.parts + found);
  }

  /** The parts of one region that match, each tagged with the region. */
  method MatchingParts(region: MainRegion, lowerQuery: string) returns (found: seq<TaggedPart>)
    ensures found == Filter(TagParts(region), PartHit(lowerQuery))
  {
    found := [];
    if region.parts.Some? {
      var parts := region.parts.value;
      for j := 0 to |parts|
        invariant found == Filter(TagParts(region)[..j], PartHit(lowerQuery))
      {
        var part := parts[j];
        TaggedSearchStep(region, j, lowerQuery);
        if PartMatches(part, lowerQuery) {
          found := found + [TaggedPart(part, region.id, region.name)];
        }
      }
      assert TagParts(region)[..|parts|] == TagParts(region);
    } else {
      assert TagParts(region) == [];
    }
  }

  function IsRegionHit(q: string): Item -> bool {
    (it: Item) => it.RegionItem? && RegionMatches(it.region, q)
  }

  function IsPartHit(q: string): Item -> bool {
    (it: Item) => it.PartItem? && PartMatches(it.tagged.part, q)
  }

  /** A block's region hit is its region, when that matches. */
  lemma BlockRegionHits(r: MainRegion, q: string)
    ensures Filter(Block(r), IsRegionHit(q)) == Map(Filter([r], RegionHit(q)), AsRegionItem)
  {
    var items := Map(TagParts(r), AsPartItem);
    FilterAppend([RegionItem(r)], items, IsRegionHit(q));
    FilterMap(TagParts(r), AsPartItem, IsRegionHit(q), (x: TaggedPart) => false);
    assert Filter(TagParts(r), (x: TaggedPart) => false) == [];
    assert [r][1..] == [] && [RegionItem(r)][1..] == [];
  }

  /** A block's part hits are its matching tagged parts. */
  lemma BlockPartHits(r: MainRegion, q: string)
    ensures Filter(Block(r), IsPartHit(q)) == Map(Filter(TagParts(r), PartHit(q)), AsPartItem)
  {
    var items := Map(TagParts(r), AsPartItem);
    FilterAppend([RegionItem(r)], items, IsPartHit(q));
    FilterMap(TagParts(r), AsPartItem, IsPartHit(q), PartHit(q));
    assert [RegionItem(r)][1..] == [];
  }

  /** The regions `searchBrain` finds are the matching regions of the flattened listing, in the
      same order. */
  lemma {:induction false} SearchRegionsFollowListing(rs: seq<MainRegion>, q: string)
    ensures Filter(Flatten(rs), IsRegionHit(q)) == Map(Filter(rs, RegionHit(q)), AsRegionItem)
    decreases |rs|
  {
    if rs != [] {
      var init, last := rs[..|rs| - 1], rs[|rs| - 1];
      var hits := Filter(init, RegionHit(q));
      calc {
        Filter(Flatten(rs), IsRegionHit(q));
        { FilterAppend(Flatten(init), Block(last), IsRegionHit(q)); }
        Filter(Flatten(init), IsRegionHit(q)) + Filter(Block(last), IsRegionHit(q));
        { SearchRegionsFollowListing(init, q); BlockRegionHits(last, q); }
        Map(hits, AsRegionItem) + Map(Filter([last], RegionHit(q)), AsRegionItem);
        { MapAppend(hits, Filter([last], RegionHit(q)), AsRegionItem); }
        Map(hits + Filter([last], RegionHit(q)), AsRegionItem);
        { assert rs == init + [last]; FilterAppend(init, [last], RegionHit(q)); }
        Map(Filter(rs, RegionHit(q)), AsRegionItem);
      }
    }
  }

  /** The parts `searchBrain` finds are the matching parts of the flattened listing, in the same
      order, with the same tags. */
  lemma {:induction false} SearchPartsFollowListing(rs: seq<MainRegion>, q: string)
    ensures Filter(Flatten(rs), IsPartHit(q)) == Map(Filter(AllTaggedParts(rs), PartHit(q)), AsPartItem)
    decreases |rs|
  {
    if rs != [] {
      var init, last := rs[..|rs| - 1], rs[|rs| - 1];
      SearchPartsFollowListing(init, q);
      FilterAppend(Flatten(init), Block(last), IsPartHit(q));
      BlockPartHits(last, q);
      FilterAppend(AllTaggedParts(init), TagParts(last), PartHit(q));
      MapAppend(Filter(AllTaggedParts(init), PartHit(q)), Filter(TagParts(last), PartHit(q)), AsPartItem);
    }
  }

  /** An empty query matches every region and every part. */
  lemma EmptySearchFindsAll(rs: seq<MainRegion>)
    ensures Filter(rs, RegionHit("")) == rs
    ensures Filter(AllTaggedParts(rs), PartHit("")) == AllTaggedParts(rs)
  {
    forall s: string ensures Contains(s, "") {
      assert "" <= s;
    }
    FilterAll(rs, RegionHit(""));
    FilterAll(AllTaggedParts(rs), PartHit(""));
  }

  function Sum(xs: seq<int>): int
    decreases |xs|
  {
    if xs == [] then 0 else Sum(xs[..|xs| - 1]) + xs[|xs| - 1]
  }

  /** The number of parts is the sum of the regions' part counts. */
  lemma {:induction false} TotalPartsIsSum(rs: seq<MainRegion>, counts: seq<int>)
    requires |rs| == |counts| && forall i :: 0 <= i < |rs| ==> |PartsOf(rs[i])| == counts[i]
    ensures TotalParts(rs) == Sum(counts)
    decreases |rs|
  {
    if rs != [] {
      TotalPartsIsSum(rs[..|rs| - 1], counts[..|counts| - 1]);
    }
  }

  /** The sum of six numbers, written out. */
  lemma SumOfSix(c: seq<int>)
    requires |c| == 6
    ensures Sum(c) == c[0] + c[1] + c[2] + c[3] + c[4] + c[5]
  {
    assert c[..1][..0] == [];
    assert Sum(c[..1]) == c[0];
    assert c[..2][..1] == c[..1];
    assert Sum(c[..2]) == c[0] + c[1];
    assert c[..3][..2] == c[..2];
    assert Sum(c[..3]) == c[0] + c[1] + c[2];
    assert c[..4][..3] == c[..3];
    assert Sum(c[..4]) == c[0] + c[1] + c[2] + c[3];
    assert c[..5][..4] == c[..4];
    assert Sum(c[..5]) == c[0] + c[1] + c[2] + c[3] + c[4];
    assert c[..5] == c[..|c| - 1];
  }

  /** Six main regions keyed by their own ids, all of type `'REGION'`, with 6, 4, 5, 2, 3 and 3
      parts; every part has type `'PART'` and names its region in `partOf`. */
  lemma ColumnsShape()
    ensures |StructureKeys| == |StructureIdentities| == 6
    ensures forall i, k :: 0 <= i < k < 6 ==> StructureKeys[i] != StructureKeys[k]
    ensures forall i :: 0 <= i < 6 ==>
      && StructureKeys[i] == StructureIdentities[i].id
      && StructureIdentities[i].kind == "REGION" && StructureIdentities[i].isMainRegion
    ensures forall i, j :: 0 <= i < 6 && 0 <= j < |StructureIdentities[i].parts| ==>
      StructureIdentities[i].parts[j].kind == "PART" && StructureIdentities[i].parts[j].partOf == StructureIdentities[i].name
    ensures Map(StructureIdentities, (d: RegionIdentity) => |d.parts|) == [6, 4, 5, 2, 3, 3]
  {
  }

  /** The table has six entries keyed by their own ids, all main regions. This holds whatever
      the free text, and so for `BrainStructureData`, which is `Assemble(StructureKeys,
      StructureIdentities, StructureTexts)`. */
  lemma StructureShape(texts: seq<RegionText>)
    ensures var table := Assemble(StructureKeys, StructureIdentities, texts);
      && |table| == 6
      && KeysDistinct(table)
      && forall i :: 0 <= i < 6 ==> table[i].key == table[i].region.id && table[i].region.kind == "REGION"
  {
    ColumnsShape();
  }

  /** Every part of the table has type `'PART'` and names its own region in `partOf`. */
  lemma StructurePartsWellFormed(texts: seq<RegionText>)
    ensures PartsWellFormed(Assemble(StructureKeys, StructureIdentities, texts))
  {
    ColumnsShape();
  }

  /** The table holds 23 parts. */
  lemma StructurePartCount(texts: seq<RegionText>)
    ensures TotalParts(Values(Assemble(StructureKeys, StructureIdentities, texts))) == 23
  {
    ColumnsShape();
    var rs := Values(Assemble(StructureKeys, StructureIdentities, texts));
    var counts := Map(StructureIdentities, (d: RegionIdentity) => |d.parts|);
    assert forall i :: 0 <= i < 6 ==> |PartsOf(rs[i])| == counts[i];
    TotalPartsIsSum(rs, counts);
    SumOfSix(counts);
  }

  /** `getMainRegions` returns every entry of the table: the six main regions of the header. */
  lemma MainRegionsAreAll(texts: seq<RegionText>)
    ensures var table := Assemble(StructureKeys, StructureIdentities, texts);
      GetMainRegions(table) == Values(table) && |GetMainRegions(table)| == 6
  {
    StructureShape(texts);
    var table := Assemble(StructureKeys, StructureIdentities, texts);
    FilterAll(Values(table), (r: MainRegion) => r.kind == "REGION");
  }

  /** `getAllRegionsAndParts` lists 6 regions and 23 parts. */
  lemma ListingSize(texts: seq<RegionText>)
    ensures |Flatten(Values(Assemble(StructureKeys, StructureIdentities, texts)))| == 29
  {
    StructureShape(texts);
    StructurePartCount(texts);
    FlattenLength(Values(Assemble(StructureKeys, StructureIdentities, texts)));
  }
}
