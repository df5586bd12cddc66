/** The Desikan-Killiany table of `src/data/desikanKillianyRegions.js` and its helpers: 68
    cortical regions, 34 per hemisphere, in an array searched with `find` and `filter`. */
module DesikanKilliany {
  import opened Wrappers
  import opened JsText
  import opened JsArray

  /** One entry of `DESIKAN_KILLIANY_REGIONS`. The Brodmann areas, clinical notes and
      connections, which no helper reads, are not part of the model. */
  datatype DkRegion = DkRegion(
    id: int, name: string, fullName: string, hemisphere: string, lobe: string, color: string,
    functions: seq<string>)

  /** `s[i]`, or `d` past the end. */
  function At<T>(s: seq<T>, i: nat, d: T): T {
    if i < |s| then s[i] else d
  }

  /** The columns of one half of the table other than the ids and hemispheres. */
  datatype DkText = DkText(names: seq<string>, fullNames: seq<string>, lobes: seq<string>,
                           colors: seq<string>, functions: seq<seq<string>>)

  /** The entries from their columns, paired by position, one entry per id. The columns are kept
      apart so that a fact about the ids or hemispheres can be proved whatever the others hold. */
  function Assemble(ids: seq<int>, hemispheres: seq<string>, text: DkText): (table: seq<DkRegion>)
    ensures |table| == |ids|
    ensures forall i :: 0 <= i < |table| ==>
      && table[i].id == ids[i] && table[i].hemisphere == At(hemispheres, i, "")
      && table[i].name == At(text.names, i, "") && table[i].fullName == At(text.fullNames, i, "")
      && table[i].lobe == At(text.lobes, i, "") && table[i].color == At(text.colors, i, "")
      && table[i].functions == At(text.functions, i, [])
  {
    seq(|ids|, i requires 0 <= i < |ids| =>
      DkRegion(ids[i], At(text.names, i, ""), At(text.fullNames, i, ""), At(hemispheres, i, ""),
        At(text.lobes, i, ""), At(text.colors, i, ""), At(text.functions, i, [])))
  }

  /** The table from the other columns of its two halves: the left hemisphere, then the right. */
  function DkTable(left: DkText, right: DkText): seq<DkRegion> {
    Assemble(DkLeftIds, DkLeftHemispheres, left) + Assemble(DkRightIds, DkRightHemispheres, right)
  }

  /** `DESIKAN_KILLIANY_REGIONS`, in source order. */
  const DesikanKillianyRegions: seq<DkRegion> := DkTable(DkLeftText, DkRightText)

  const DkLeftText := DkText(DkLeftNames, DkLeftFullNames, DkLeftLobes, DkLeftColors, DkLeftFunctions)
  const DkRightText := DkText(DkRightNames, DkRightFullNames, DkRightLobes, DkRightColors, DkRightFunctions)

  /** The left-hemisphere entries, column by column, in source order. */
  const DkLeftIds: seq<int> := [
    3, 26, 27, 23, 16, 31, 17, 19, 18, 11, 13, 21, 28, 7, 30, 24, 29,
    1, 14, 8, 33, 5, 32, 6, 15, 10, 12, 4, 20, 25, 2, 22, 9, 34
  ]

  const DkLeftNames: seq<string> := [
    "caudalmiddlefrontal_L", "rostralmiddlefrontal_L", "superiorfrontal_L", "precentral_L",
    "paracentral_L", "frontalpole_L", "parsopercularis_L", "parstriangularis_L",
    "parsorbitalis_L", "lateralorbitofrontal_L", "medialorbitofrontal_L", "postcentral_L",
    "superiorparietal_L", "inferiorparietal_L", "supramarginal_L", "precuneus_L",
    "superiortemporal_L", "bankssts_L", "middletemporal_L", "inferiortemporal_L",
    "transversetemporal_L", "entorhinal_L", "temporalpole_L", "fusiform_L",
    "parahippocampal_L", "lateraloccipital_L", "lingual_L", "cuneus_L",
    "pericalcarine_L", "rostralanteriorcingulate_L", "caudalanteriorcingulate_L", "posteriorcingulate_L",
    "isthmuscingulate_L", "insula_L"
  ]

  const DkLeftFullNames: seq<string> := [
    "Left Caudal Middle Frontal Gyrus", "Left Rostral Middle Frontal Gyrus",
    "Left Superior Frontal Gyrus", "Left Precentral Gyrus (Primary Motor Cortex)",
    "Left Paracentral Lobule", "Left Frontal Pole",
    "Left Pars Opercularis (Broca's Area - posterior)", "Left Pars Triangularis (Broca's Area - anterior)",
    "Left Pars Orbitalis", "Left Lateral Orbitofrontal Cortex",
    "Left Medial Orbitofrontal Cortex", "Left Postcentral Gyrus (Primary Somatosensory Cortex)",
    "Left Superior Parietal Lobule", "Left Inferior Parietal Cortex",
    "Left Supramarginal Gyrus", "Left Precuneus",
    "Left Superior Temporal Gyrus", "Left Banks of the Superior Temporal Sulcus",
    "Left Middle Temporal Gyrus", "Left Inferior Temporal Gyrus",
    "Left Transverse Temporal Gyrus (Heschl's Gyrus)", "Left Entorhinal Cortex",
    "Left Temporal Pole", "Left Fusiform Gyrus",
    "Left Parahippocampal Gyrus", "Left Lateral Occipital Cortex",
    "Left Lingual Gyrus", "Left Cuneus",
    "Left Pericalcarine Cortex (Primary Visual Cortex, V1)", "Left Rostral Anterior Cingulate Cortex",
    "Left Caudal Anterior Cingulate Cortex", "Left Posterior Cingulate Cortex",
    "Left Isthmus of Cingulate Cortex", "Left Insular Cortex"
  ]

  const DkLeftHemispheres: seq<string> := [
    "left", "left", "left", "left", "left", "left", "left", "left", "left", "left", "left", "left",
    "left", "left", "left", "left", "left", "left", "left", "left", "left", "left", "left", "left",
    "left", "left", "left", "left", "left", "left", "left", "left", "left", "left"
  ]

  const DkLeftLobes: seq<string> := [
    "Frontal", "Frontal", "Frontal", "Frontal", "Frontal", "Frontal", "Frontal", "Frontal", "Frontal", "Frontal",
    "Frontal", "Parietal", "Parietal", "Parietal", "Parietal", "Parietal", "Temporal", "Temporal", "Temporal", "Temporal",
    "Temporal", "Temporal", "Temporal", "Temporal", "Temporal", "Occipital", "Occipital", "Occipital", "Occipital", "Limbic",
    "Limbic", "Limbic", "Limbic", "Insular"
  ]

  const DkLeftColors: seq<string> := [
    "#64190A", "#4B327D", "#14DCA0", "#3C14DC", "#3CDC3C", "#64C264", "#DCB48C", "#DC3C14", "#146432", "#234B32",
    "#C8234B", "#DC1414", "#14B48C", "#DC3CDC", "#50A014", "#A08CB4", "#8CDCDC", "#196428", "#A06432", "#B42878",
    "#DD3C3C", "#DC140A", "#2196FA", "#B4DC8C", "#14DC3C", "#141E8C", "#E18C8C", "#DC1464", "#78643C", "#50148C",
    "#7D64A0", "#DCB4DC", "#8C148C", "#FFC020"
  ]

  const DkLeftFunctions: seq<seq<string>> := [
    // caudalmiddlefrontal_L
    ["Executive function and cognitive control", "Working memory maintenance", "Attention and task switching", "Goal-directed behavior"],
    // rostralmiddlefrontal_L
    ["Working memory", "Attention control", "Cognitive flexibility", "Decision making"],
    // superiorfrontal_L
    ["Higher cognitive functions", "Self-awareness and introspection", "Working memory", "Motor planning"],
    // precentral_L
    ["Voluntary movement control", "Motor execution", "Fine motor control", "Motor planning"],
    // paracentral_L
    ["Motor control of lower limbs", "Sensory processing from legs and feet", "Bladder control", "Defecation control"],
    // frontalpole_L
    ["Meta-cognition and abstract thinking", "Future planning and prospective memory", "Self-generated thought", "Multitasking"],
    // parsopercularis_L
    ["Speech production", "Language processing", "Motor speech planning", "Syntax processing"],
    // parstriangularis_L
    ["Language comprehension", "Semantic processing", "Speech production support", "Verbal fluency"],
    // parsorbitalis_L
    ["Language processing", "Semantic retrieval", "Verbal fluency", "Social communication"],
    // lateralorbitofrontal_L
    ["Decision making and choice evaluation", "Reward and punishment processing", "Emotion regulation", "Social behavior control"],
    // medialorbitofrontal_L
    ["Value-based decision making", "Emotional regulation", "Reward evaluation", "Social cognition"],
    // postcentral_L
    ["Touch and tactile sensation", "Proprioception", "Pain and temperature sensation", "Pressure detection"],
    // superiorparietal_L
    ["Spatial processing and navigation", "Visuomotor coordination", "Attention and awareness", "Mathematical cognition"],
    // inferiorparietal_L
    ["Language processing", "Mathematical reasoning", "Spatial attention", "Tool use and gestures"],
    // supramarginal_L
    ["Language processing and phonology", "Phonological processing", "Spatial attention", "Gestural communication"],
    // precuneus_L
    ["Episodic memory retrieval", "Visuospatial processing", "Self-consciousness and reflection", "Default mode network hub"],
    // superiortemporal_L
    ["Auditory processing", "Language comprehension (Wernicke's area)", "Social cognition", "Voice recognition"],
    // bankssts_L
    ["Auditory-visual integration", "Language comprehension", "Multisensory integration", "Social perception"],
    // middletemporal_L
    ["Language comprehension", "Semantic memory", "Visual processing", "Biological motion perception"],
    // inferiortemporal_L
    ["Object recognition", "Visual memory", "Semantic processing", "Face processing"],
    // transversetemporal_L
    ["Primary auditory processing", "Sound localization", "Pitch perception", "Temporal processing of sounds"],
    // entorhinal_L
    ["Memory formation and consolidation", "Spatial navigation and grid cells", "Temporal lobe memory system", "Path integration"],
    // temporalpole_L
    ["Semantic memory", "Social and emotional processing", "Theory of mind", "Famous face recognition"],
    // fusiform_L
    ["Face recognition (fusiform face area)", "Word recognition (visual word form area)", "Color processing", "Body recognition"],
    // parahippocampal_L
    ["Memory encoding and retrieval", "Scene recognition (parahippocampal place area)", "Spatial context processing", "Navigation"],
    // lateraloccipital_L
    ["Object recognition", "Shape processing", "Visual attention", "Motion processing"],
    // lingual_L
    ["Visual processing", "Letter recognition", "Word encoding", "Visual memory"],
    // cuneus_L
    ["Visual processing", "Visual imagery", "Basic visual perception", "Visual memory"],
    // pericalcarine_L
    ["Primary visual processing", "Visual detection", "Processing basic visual features (edges, orientation)", "Retinotopic organization"],
    // rostralanteriorcingulate_L
    ["Emotion processing and regulation", "Cognitive control", "Decision making", "Empathy and social cognition"],
    // caudalanteriorcingulate_L
    ["Emotion regulation", "Conflict monitoring", "Error detection", "Pain processing"],
    // posteriorcingulate_L
    ["Memory retrieval", "Self-referential thinking", "Default mode network", "Spatial orientation"],
    // isthmuscingulate_L
    ["Visuospatial processing", "Memory retrieval", "Default mode network", "Retrosplenial functions"],
    // insula_L
    ["Interoception and body awareness", "Emotion processing", "Pain perception", "Self-awareness and empathy"]
  ]

  /** The right-hemisphere entries, column by column, in source order. */
  const DkRightIds: seq<int> := [
    37, 60, 61, 57, 50, 65, 51, 53, 52, 45, 47, 55, 62, 41, 64, 58, 63,
    35, 48, 42, 67, 39, 66, 40, 49, 44, 46, 38, 54, 59, 36, 56, 43, 68
  ]

  const DkRightNames: seq<string> := [
    "caudalmiddlefrontal_R", "rostralmiddlefrontal_R", "superiorfrontal_R", "precentral_R",
    "paracentral_R", "frontalpole_R", "parsopercularis_R", "parstriangularis_R",
    "parsorbitalis_R", "lateralorbitofrontal_R", "medialorbitofrontal_R", "postcentral_R",
    "superiorparietal_R", "inferiorparietal_R", "supramarginal_R", "precuneus_R",
    "superiortemporal_R", "bankssts_R", "middletemporal_R", "inferiortemporal_R",
    "transversetemporal_R", "entorhinal_R", "temporalpole_R", "fusiform_R",
    "parahippocampal_R", "lateraloccipital_R", "lingual_R", "cuneus_R",
    "pericalcarine_R", "rostralanteriorcingulate_R", "caudalanteriorcingulate_R", "posteriorcingulate_R",
    "isthmuscingulate_R", "insula_R"
  ]

  const DkRightFullNames: seq<string> := [
    "Right Caudal Middle Frontal Gyrus", "Right Rostral Middle Frontal Gyrus",
    "Right Superior Frontal Gyrus", "Right Precentral Gyrus (Primary Motor Cortex)",
    "Right Paracentral Lobule", "Right Frontal Pole",
    "Right Pars Opercularis", "Right Pars Triangularis",
    "Right Pars Orbitalis", "Right Lateral Orbitofrontal Cortex",
    "Right Medial Orbitofrontal Cortex", "Right Postcentral Gyrus (Primary Somatosensory Cortex)",
    "Right Superior Parietal Lobule", "Right Inferior Parietal Cortex",
    "Right Supramarginal Gyrus", "Right Precuneus",
    "Right Superior Temporal Gyrus", "Right Banks of the Superior Temporal Sulcus",
    "Right Middle Temporal Gyrus", "Right Inferior Temporal Gyrus",
    "Right Transverse Temporal Gyrus (Heschl's Gyrus)", "Right Entorhinal Cortex",
    "Right Temporal Pole", "Right Fusiform Gyrus",
    "Right Parahippocampal Gyrus", "Right Lateral Occipital Cortex",
    "Right Lingual Gyrus", "Right Cuneus",
    "Right Pericalcarine Cortex (Primary Visual Cortex, V1)", "Right Rostral Anterior Cingulate Cortex",
    "Right Caudal Anterior Cingulate Cortex", "Right Posterior Cingulate Cortex",
    "Right Isthmus of Cingulate Cortex", "Right Insular Cortex"
  ]

  const DkRightHemispheres: seq<string> := [
    "right", "right", "right", "right", "right", "right", "right", "right", "right", "right", "right", "right",
    "right", "right", "right", "right", "right", "right", "right", "right", "right", "right", "right", "right",
    "right", "right", "right", "right", "right", "right", "right", "right", "right", "right"
  ]

  const DkRightLobes: seq<string> := [
    "Frontal", "Frontal", "Frontal", "Frontal", "Frontal", "Frontal", "Frontal", "Frontal", "Frontal", "Frontal",
    "Frontal", "Parietal", "Parietal", "Parietal", "Parietal", "Parietal", "Temporal", "Temporal", "Temporal", "Temporal",
    "Temporal", "Temporal", "Temporal", "Temporal", "Temporal", "Occipital", "Occipital", "Occipital", "Occipital", "Limbic",
    "Limbic", "Limbic", "Limbic", "Insular"
  ]

  const DkRightColors: seq<string> := [
    "#64190A", "#4B327D", "#14DCA0", "#3C14DC", "#3CDC3C", "#64C264", "#DCB48C", "#DC3C14", "#146432", "#234B32",
    "#C8234B", "#DC1414", "#14B48C", "#DC3CDC", "#50A014", "#A08CB4", "#8CDCDC", "#196428", "#A06432", "#B42878",
    "#DD3C3C", "#DC140A", "#2196FA", "#B4DC8C", "#14DC3C", "#141E8C", "#E18C8C", "#DC1464", "#78643C", "#50148C",
    "#7D64A0", "#DCB4DC", "#8C148C", "#FFC020"
  ]

  const DkRightFunctions: seq<seq<string>> := [
    // caudalmiddlefrontal_R
    ["Executive function and cognitive control", "Working memory", "Attention", "Spatial working memory"],
    // rostralmiddlefrontal_R
    ["Working memory", "Attention control", "Executive function", "Cognitive flexibility"],
    // superiorfrontal_R
    ["Higher cognitive functions", "Self-awareness", "Working memory", "Social cognition"],
    // precentral_R
    ["Voluntary movement control", "Motor execution", "Fine motor control", "Motor planning"],
    // paracentral_R
    ["Motor control of lower limbs", "Sensory processing from legs", "Bladder and bowel control"],
    // frontalpole_R
    ["Meta-cognition", "Abstract reasoning", "Future planning", "Social cognition"],
    // parsopercularis_R
    ["Prosody processing", "Music processing", "Motor control", "Attention"],
    // parstriangularis_R
    ["Prosody comprehension", "Emotional prosody", "Attention", "Cognitive control"],
    // parsorbitalis_R
    ["Emotional processing", "Social cognition", "Semantic processing", "Attention"],
    // lateralorbitofrontal_R
    ["Decision making", "Reward processing", "Emotion regulation", "Impulse control"],
    // medialorbitofrontal_R
    ["Value-based decision making", "Emotional regulation", "Reward evaluation", "Social behavior"],
    // postcentral_R
    ["Touch sensation", "Proprioception", "Pain processing", "Temperature sensation"],
    // superiorparietal_R
    ["Spatial processing", "Visuomotor coordination", "Attention (especially spatial)", "Body schema"],
    // inferiorparietal_R
    ["Spatial attention", "Visuospatial processing", "Body awareness", "Mathematical cognition"],
    // supramarginal_R
    ["Spatial attention", "Phonological processing", "Sensorimotor integration", "Tool use"],
    // precuneus_R
    ["Episodic memory", "Visuospatial processing", "Self-consciousness", "Theory of mind"],
    // superiortemporal_R
    ["Auditory processing", "Prosody and intonation", "Music processing", "Social cognition"],
    // bankssts_R
    ["Biological motion perception", "Social perception", "Multisensory integration", "Theory of mind"],
    // middletemporal_R
    ["Semantic processing", "Visual processing", "Distance perception", "Emotional processing"],
    // inferiortemporal_R
    ["Object recognition", "Face processing", "Visual memory", "Semantic processing"],
    // transversetemporal_R
    ["Primary auditory processing", "Sound localization", "Pitch perception", "Music processing"],
    // entorhinal_R
    ["Memory formation", "Spatial navigation", "Grid cells and spatial mapping", "Odor memory"],
    // temporalpole_R
    ["Semantic memory", "Social and emotional processing", "Face recognition", "Theory of mind"],
    // fusiform_R
    ["Face recognition (fusiform face area)", "Object recognition", "Color processing", "Body recognition"],
    // parahippocampal_R
    ["Memory encoding", "Scene recognition", "Spatial context", "Navigation"],
    // lateraloccipital_R
    ["Object recognition", "Shape processing", "Visual attention", "Motion processing"],
    // lingual_R
    ["Visual processing", "Letter recognition", "Word encoding", "Visual memory"],
    // cuneus_R
    ["Visual processing", "Visual imagery", "Basic visual perception", "Visual memory"],
    // pericalcarine_R
    ["Primary visual processing", "Visual detection", "Basic visual features", "Retinotopic organization"],
    // rostralanteriorcingulate_R
    ["Emotion processing", "Cognitive control", "Decision making", "Empathy"],
    // caudalanteriorcingulate_R
    ["Emotion regulation", "Conflict monitoring", "Error detection", "Pain processing"],
    // posteriorcingulate_R
    ["Memory retrieval", "Self-referential thinking", "Default mode network", "Spatial memory"],
    // isthmuscingulate_R
    ["Visuospatial processing", "Memory retrieval", "Default mode network", "Navigation"],
    // insula_R
    ["Interoception", "Emotion", "Pain perception", "Disgust and aversion"]
  ]

  /** For each id from 1 to 34, the position of the left-hemisphere entry with that id. */
  ghost const LeftPositions: seq<nat> := [17, 30, 0, 27, 21, 23, 13, 19, 32, 25, 9, 26, 10, 18, 24, 4, 6, 8, 7, 28, 11, 31, 3, 15, 29, 1, 2, 12, 16, 14, 5, 22, 20, 33]

  lemma LeftIdsShape()
    ensures |DkLeftIds| == 34
    ensures forall i :: 0 <= i < 34 ==> 1 <= DkLeftIds[i] <= 34 && LeftPositions[DkLeftIds[i] - 1] == i
  {
  }

  lemma RightIdsShape()
    ensures |DkLeftIds| == |DkRightIds| == 34
    ensures forall i :: 0 <= i < 34 ==> DkRightIds[i] == DkLeftIds[i] + 34
  {
  }

  lemma HemispheresShape()
    ensures |DkLeftHemispheres| == |DkRightHemispheres| == 34
    ensures forall i :: 0 <= i < 34 ==> DkLeftHemispheres[i] == "left"
    ensures forall i :: 0 <= i < 34 ==> DkRightHemispheres[i] == "right"
  {
  }

  lemma ColumnsMirror()
    ensures |DkLeftLobes| == |DkRightLobes| == |DkLeftColors| == |DkRightColors| == 34
    ensures forall i :: 0 <= i < 34 ==> DkLeftLobes[i] == DkRightLobes[i] && DkLeftColors[i] == DkRightColors[i]
  {
  }

  lemma LeftPositionsBound()
    ensures |LeftPositions| == 34 && forall k :: 0 <= k < 34 ==> LeftPositions[k] < 34
  {
  }

  lemma LeftPositionsLow()
    ensures |DkLeftIds| == |LeftPositions| == 34
    ensures forall k :: 0 <= k < 17 ==> DkLeftIds[LeftPositions[k]] == k + 1
  {
  }

  lemma LeftPositionsHigh()
    ensures |DkLeftIds| == |LeftPositions| == 34
    ensures forall k :: 17 <= k < 34 ==> DkLeftIds[LeftPositions[k]] == k + 1
  {
  }

  /** Position `k` of `LeftPositions` holds the left entry whose id is `k + 1`. */
  lemma LeftPositionsShape()
    ensures |DkLeftIds| == |LeftPositions| == 34
    ensures forall k :: 0 <= k < 34 ==> LeftPositions[k] < 34 && DkLeftIds[LeftPositions[k]] == k + 1
  {
    LeftPositionsBound();
    LeftPositionsLow();
    LeftPositionsHigh();
  }

  /** Both halves have 34 entries, whatever their other columns. */
  lemma HalvesSize(left: DkText, right: DkText)
    ensures var l, r := Assemble(DkLeftIds, DkLeftHemispheres, left), Assemble(DkRightIds, DkRightHemispheres, right);
      && |l| == |r| == 34 && |DkTable(left, right)| == 68
      && (forall i :: 0 <= i < 34 ==> l[i].id == DkLeftIds[i] && r[i].id == DkRightIds[i])
      && (forall i :: 0 <= i < 34 ==> l[i].hemisphere == "left" && r[i].hemisphere == "right")
  {
    LeftIdsShape();
    RightIdsShape();
    HemispheresShape();
  }

  // getRegionById

  function IdIs(id: int): DkRegion -> bool {
    (r: DkRegion) => r.id == id
  }

  /** `getRegionById`: the first entry whose id is `id` under strict equality, `undefined`
      (`None`) when there is none. */
  function GetRegionById(table: seq<DkRegion>, id: int): (r: Option<DkRegion>)
    ensures r.None? <==> forall i :: 0 <= i < |table| ==> table[i].id != id
    ensures r.Some? ==> exists i :: (0 <= i < |table| && table[i] == r.value && r.value.id == id
      && forall j :: 0 <= j < i ==> table[j].id != id)
  {
    Find(table, IdIs(id))
  }

  predicate IdsDistinct(table: seq<DkRegion>) {
    forall i, j :: 0 <= i < j < |table| ==> table[i].id != table[j].id
  }

  /** With distinct ids, an entry's own id finds that entry. */
  lemma FindsEachEntry(table: seq<DkRegion>, i: nat)
    requires IdsDistinct(table) && i < |table|
    ensures GetRegionById(table, table[i].id) == Some(table[i])
  {
    var r := GetRegionById(table, table[i].id);
    var k :| 0 <= k < |table| && table[k] == r.value && r.value.id == table[i].id
      && forall j :: 0 <= j < k ==> table[j].id != table[i].id;
    assert k == i;
  }

  /** Entry `i` of the table has the `i`-th left id, or the matching left id plus 34 in the
      right half. */
  lemma TableIdColumn(left: DkText, right: DkText)
    ensures |DkTable(left, right)| == 68
    ensures forall i :: 0 <= i < 34 ==>
      DkTable(left, right)[i].id == DkLeftIds[i] && DkTable(left, right)[34 + i].id == DkLeftIds[i] + 34
  {
    HalvesSize(left, right);
    RightIdsShape();
    var t := DkTable(left, right);
    var l, r := Assemble(DkLeftIds, DkLeftHemispheres, left), Assemble(DkRightIds, DkRightHemispheres, right);
    assert forall i :: 0 <= i < 34 ==> t[i] == l[i] && t[34 + i] == r[i];
  }

  /** No two left entries share an id. */
  lemma LeftIdsDistinct()
    ensures forall i, j :: 0 <= i < j < 34 ==> DkLeftIds[i] != DkLeftIds[j]
  {
    LeftIdsShape();
    forall i, j | 0 <= i < j < 34
      ensures DkLeftIds[i] != DkLeftIds[j]
    {
      assert LeftPositions[DkLeftIds[i] - 1] == i && LeftPositions[DkLeftIds[j] - 1] == j;
    }
  }

  /** A table whose halves carry distinct ids from 1 to 34, the right half shifted by 34, has
      distinct ids from 1 to 68. */
  lemma ShiftedHalvesIds(t: seq<DkRegion>, ids: seq<int>)
    requires |t| == 68 && |ids| == 34
    requires forall i :: 0 <= i < 34 ==> 1 <= ids[i] <= 34
    requires forall i, j :: 0 <= i < j < 34 ==> ids[i] != ids[j]
    requires forall i :: 0 <= i < 34 ==> t[i].id == ids[i] && t[34 + i].id == ids[i] + 34
    ensures IdsDistinct(t)
    ensures forall i :: 0 <= i < |t| ==> 1 <= t[i].id <= 68
  {
    forall i, j | 0 <= i < j < |t|
      ensures t[i].id != t[j].id
    {
      if j < 34 {
        assert t[i].id == ids[i] && t[j].id == ids[j];
      } else if 34 <= i {
        assert t[34 + (i - 34)].id == ids[i - 34] + 34 && t[34 + (j - 34)].id == ids[j - 34] + 34;
        assert ids[i - 34] != ids[j - 34];
      } else {
        assert t[i].id == ids[i] && t[34 + (j - 34)].id == ids[j - 34] + 34;
      }
    }
    forall i | 0 <= i < |t|
      ensures 1 <= t[i].id <= 68
    {
      if i < 34 {
        assert t[i].id == ids[i];
      } else {
        assert t[34 + (i - 34)].id == ids[i - 34] + 34;
      }
    }
  }

  /** The ids of the table are 1 to 68, each once, whatever its other columns. */
  lemma TableIds(left: DkText, right: DkText)
    ensures IdsDistinct(DkTable(left, right))
    ensures forall i :: 0 <= i < |DkTable(left, right)| ==> 1 <= DkTable(left, right)[i].id <= 68
  {
    TableIdColumn(left, right);
    LeftIdsShape();
    LeftIdsDistinct();
    ShiftedHalvesIds(DkTable(left, right), DkLeftIds);
  }

  /** `getRegionById` finds an entry exactly for the ids 1 to 68, and each entry by its own id,
      whatever the other columns. */
  lemma RegionByIdFindsExactlyTheTable(left: DkText, right: DkText, id: int)
    ensures GetRegionById(DkTable(left, right), id).Some? <==> 1 <= id <= 68
    ensures forall i :: 0 <= i < |DkTable(left, right)| ==>
      GetRegionById(DkTable(left, right), DkTable(left, right)[i].id) == Some(DkTable(left, right)[i])
  {
    TableIds(left, right);
    HalvesSize(left, right);
    var t := DkTable(left, right);
    var l, r := Assemble(DkLeftIds, DkLeftHemispheres, left), Assemble(DkRightIds, DkRightHemispheres, right);
    forall i | 0 <= i < |t|
      ensures GetRegionById(t, t[i].id) == Some(t[i])
    {
      FindsEachEntry(t, i);
    }
    if 1 <= id <= 68 {
      LeftPositionsShape();
      RightIdsShape();
      if id <= 34 {
        var i := LeftPositions[id - 1];
        assert t[i] == l[i];
        assert t[i].id == id;
      } else {
        var i := LeftPositions[id - 35];
        assert t[i + 34] == r[i];
        assert t[i + 34].id == id;
      }
    }
  }

  // getRegionsByLobe, getRegionsByHemisphere

  function LobeIs(lobe: string): DkRegion -> bool {
    (r: DkRegion) => Lower(r.lobe) == Lower(lobe)
  }

  function HemisphereIs(hemisphere: string): DkRegion -> bool {
    (r: DkRegion) => Lower(r.hemisphere) == Lower(hemisphere)
  }

  /** `getRegionsByLobe`: the entries whose lobe equals `lobe` when both are lower-cased, in table
      order. */
  function GetRegionsByLobe(table: seq<DkRegion>, lobe: string): (rs: seq<DkRegion>)
    ensures IsSubsequence(rs, table)
    ensures forall r :: r in rs <==> r in table && Lower(r.lobe) == Lower(lobe)
  {
    Filter(table, LobeIs(lobe))
  }

  /** `getRegionsByHemisphere`: the entries whose hemisphere equals `hemisphere` when both are
      lower-cased, in table order. */
  function GetRegionsByHemisphere(table: seq<DkRegion>, hemisphere: string): (rs: seq<DkRegion>)
    ensures IsSubsequence(rs, table)
    ensures forall r :: r in rs <==> r in table && Lower(r.hemisphere) == Lower(hemisphere)
  {
    Filter(table, HemisphereIs(hemisphere))
  }

  /** The case of the lobe or hemisphere asked for never matters. */
  lemma LobeAndHemisphereIgnoreCase(table: seq<DkRegion>, lobe: string, hemisphere: string)
    ensures GetRegionsByLobe(table, lobe) == GetRegionsByLobe(table, Lower(lobe))
    ensures GetRegionsByHemisphere(table, hemisphere) == GetRegionsByHemisphere(table, Lower(hemisphere))
  {
    LowerIdempotent(lobe);
    LowerIdempotent(hemisphere);
    FilterSameTest(table, LobeIs(lobe), LobeIs(Lower(lobe)));
    FilterSameTest(table, HemisphereIs(hemisphere), HemisphereIs(Lower(hemisphere)));
  }

  /** Filtering two halves that the test separates keeps exactly the half it accepts. */
  lemma FilterSplit(l: seq<DkRegion>, r: seq<DkRegion>, p: DkRegion -> bool)
    ensures (forall i :: 0 <= i < |l| ==> p(l[i])) && (forall i :: 0 <= i < |r| ==> !p(r[i])) ==> Filter(l + r, p) == l
    ensures (forall i :: 0 <= i < |l| ==> !p(l[i])) && (forall i :: 0 <= i < |r| ==> p(r[i])) ==> Filter(l + r, p) == r
  {
    FilterAppend(l, r, p);
    if (forall i :: 0 <= i < |l| ==> p(l[i])) && (forall i :: 0 <= i < |r| ==> !p(r[i])) {
      FilterAll(l, p);
      FilterNone(r, p);
    }
    if (forall i :: 0 <= i < |l| ==> !p(l[i])) && (forall i :: 0 <= i < |r| ==> p(r[i])) {
      FilterNone(l, p);
      FilterAll(r, p);
    }
  }

  lemma HemisphereNamesLower()
    ensures Lower("left") == "left" && Lower("right") == "right"
  {
  }

  /** Asking for `left`, in any case, gives the left half of the table, 34 entries, whatever the
      other columns ... */
  lemma LeftHemisphereIsLeftHalf(left: DkText, right: DkText, hemisphere: string)
    requires Lower(hemisphere) == "left"
    ensures var l := Assemble(DkLeftIds, DkLeftHemispheres, left);
      |l| == 34 && GetRegionsByHemisphere(DkTable(left, right), hemisphere) == l
  {
    HalvesSize(left, right);
    HemisphereNamesLower();
    var l, r := Assemble(DkLeftIds, DkLeftHemispheres, left), Assemble(DkRightIds, DkRightHemispheres, right);
    var p := HemisphereIs(hemisphere);
    assert forall i :: 0 <= i < |l| ==> p(l[i]);
    assert forall i :: 0 <= i < |r| ==> !p(r[i]);
    FilterSplit(l, r, p);
  }

  /** ... and asking for `right` gives the right half. */
  lemma RightHemisphereIsRightHalf(left: DkText, right: DkText, hemisphere: string)
    requires Lower(hemisphere) == "right"
    ensures var r := Assemble(DkRightIds, DkRightHemispheres, right);
      |r| == 34 && GetRegionsByHemisphere(DkTable(left, right), hemisphere) == r
  {
    HalvesSize(left, right);
    HemisphereNamesLower();
    var l, r := Assemble(DkLeftIds, DkLeftHemispheres, left), Assemble(DkRightIds, DkRightHemispheres, right);
    var p := HemisphereIs(hemisphere);
    assert forall i :: 0 <= i < |l| ==> !p(l[i]);
    assert forall i :: 0 <= i < |r| ==> p(r[i]);
    FilterSplit(l, r, p);
  }

  // searchRegions

  /** Whether `searchRegions` keeps `r` for the lower-cased term `q`: its name, full name or one
      of its functions, lower-cased, contains `q`. */
  predicate MatchesTerm(r: DkRegion, q: string) {
    || Contains(Lower(r.name), q)
    || Contains(Lower(r.fullName), q)
    || (exists f :: f in r.functions && Contains(Lower(f), q))
  }

  function Matching(q: string): DkRegion -> bool {
    (r: DkRegion) => MatchesTerm(r, q)
  }

  /** `searchRegions`: the entries matching the lower-cased term, in table order. */
  function SearchRegions(table: seq<DkRegion>, searchTerm: string): (rs: seq<DkRegion>)
    ensures IsSubsequence(rs, table)
    ensures forall r :: r in rs <==> r in table && MatchesTerm(r, Lower(searchTerm))
  {
    Filter(table, Matching(Lower(searchTerm)))
  }

  /** The empty term is contained in every name, so it keeps every entry. */
  lemma EmptySearchReturnsAll(table: seq<DkRegion>)
    ensures SearchRegions(table, "") == table
  {
    forall i | 0 <= i < |table|
      ensures Matching("")(table[i])
    {
      assert Contains(Lower(table[i].name), "");
    }
    FilterAll(table, Matching(""));
  }

  /** The term is lower-cased before matching, so its case never matters. */
  lemma SearchIgnoresCase(table: seq<DkRegion>, searchTerm: string)
    ensures SearchRegions(table, searchTerm) == SearchRegions(table, Lower(searchTerm))
  {
    LowerIdempotent(searchTerm);
  }

  // getRegionColors

  /** `getRegionColors`: the `reduce` that writes each entry's colour under its name, in table
      order, so that a later entry with the same name overwrites an earlier one. */
  function RegionColors(table: seq<DkRegion>): (colors: map<string, string>)
    decreases |table|
  {
    if table == [] then map[]
    else RegionColors(table[..|table| - 1])[table[|table| - 1].name := table[|table| - 1].color]
  }

  /** A name is a key exactly when some entry has it, and its colour is that of the last entry
      with that name. */
  lemma {:induction false} RegionColorsLastWriteWins(table: seq<DkRegion>, name: string)
    ensures name in RegionColors(table) <==> exists i :: 0 <= i < |table| && table[i].name == name
    ensures forall i :: (0 <= i < |table| && table[i].name == name
      && (forall j :: i < j < |table| ==> table[j].name != name)) ==> RegionColors(table)[name] == table[i].color
    decreases |table|
  {
    if table != [] {
      var init := table[..|table| - 1];
      RegionColorsLastWriteWins(init, name);
      assert forall i :: 0 <= i < |init| ==> init[i] == table[i];
    }
  }

  /** Every entry's name is a key of the colour map. */
  lemma EveryNameHasAColor(table: seq<DkRegion>, i: nat)
    requires i < |table|
    ensures table[i].name in RegionColors(table)
  {
    RegionColorsLastWriteWins(table, table[i].name);
  }
}
