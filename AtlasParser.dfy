/** The vertex-to-region atlas pipeline of `src/utils/atlasParser.js`: the AAL text parser and
    its statistics, the sibling label-file parser, the face resolver, the per-vertex colour
    buffer and the colour helpers. */
module AtlasParser {
  import opened Wrappers
  import opened JsText
  import opened JsArray
  import opened MajorityVote
  import BR = BrainRegions

  /** JavaScript's `parseInt` applied to one token; `None` stands for `NaN`. */
  type IntParser = string -> Option<int>

  /** What the parser stores for a labelled vertex. */
  datatype RegionData = RegionData(id: int, name: string, vertexIndex: int)

  /** The statistics kept per region name. */
  datatype RegionStats = RegionStats(id: int, vertexCount: nat, minVertex: int, maxVertex: int)

  /** The parser's result. */
  datatype AtlasData = AtlasData(
    vertexToRegion: map<int, RegionData>,
    regionStats: map<string, RegionStats>,
    totalVertices: nat,
    totalRegions: nat)

  /** The state the parser builds line by line. */
  datatype Acc = Acc(vertexToRegion: map<int, RegionData>, regionStats: map<string, RegionStats>)

  function Min(a: int, b: int): int {
    if a <= b then a else b
  }

  function Max(a: int, b: int): int {
    if a >= b then a else b
  }

  /** The rendering of a parsed id in a template literal: a number, or `NaN`. */
  function IdText(id: Option<int>): string {
    match id
    case Some(i) => IntToString(i)
    case None => "NaN"
  }

  /** `parts.slice(2).join(' ') || \`Region_${id}\``. */
  function RegionName(parts: seq<string>, id: Option<int>): string
    requires |parts| >= 2
  {
    var joined := Join(parts[2..], " ");
    if joined == "" then "Region_" + IdText(id) else joined
  }

  /** The lines of a text: `text.trim().split('\n')`. */
  function Lines(text: string): seq<string> {
    SplitOn(Trim(text), '\n')
  }

  /** A trimmed line the parsers skip outright: empty, or a `#` comment. */
  predicate BlankOrComment(t: string) {
    t == "" || StartsWith(t, "#")
  }

  /** The record one line of atlas text contributes, or `None` when the parser ignores it. */
  function ParseLine(line: string, parseInt: IntParser): Option<RegionData> {
    var t := Trim(line);
    if BlankOrComment(t) then None
    else
      var parts := SplitTrimmedWs(t);
      if |parts| < 2 then None
      else
        match (parseInt(parts[0]), parseInt(parts[1]))
        case (Some(v), Some(id)) => Some(RegionData(id, RegionName(parts, Some(id)), v))
        case _ => None
  }

  /** A kept line, trimmed, is neither blank nor a comment and has at least two tokens, and the
      record holds what its first two tokens parse to ... */
  lemma KeptLine(line: string, parseInt: IntParser)
    requires ParseLine(line, parseInt).Some?
    ensures var r, t := ParseLine(line, parseInt).value, Trim(line);
      && !BlankOrComment(t) && |Words(t)| >= 2
      && parseInt(Words(t)[0]) == Some(r.vertexIndex) && parseInt(Words(t)[1]) == Some(r.id)
  {
  }

  /** ... and a line is dropped only when, trimmed, it is blank or a comment, has fewer than two
      tokens, or one of its first two tokens does not parse. */
  lemma DroppedLine(line: string, parseInt: IntParser)
    requires ParseLine(line, parseInt).None?
    ensures var t := Trim(line);
      || BlankOrComment(t) || |Words(t)| < 2 || parseInt(Words(t)[0]).None? || parseInt(Words(t)[1]).None?
  {
  }

  /** The name a valid line stores splits back into the line's third and later tokens, or is
      `Region_<id>` when there are none. */
  lemma ParsedNameIsRestOfLine(line: string, parseInt: IntParser)
    requires ParseLine(line, parseInt).Some?
    ensures var parts := Words(Trim(line));
      var name := ParseLine(line, parseInt).value.name;
      && (|parts| > 2 ==> Words(name) == parts[2..])
      && (|parts| == 2 ==> name == "Region_" + IntToString(ParseLine(line, parseInt).value.id))
  {
    var parts := Words(Trim(line));
    WordsOfJoin(parts[2..]);
    if |parts| > 2 {
      assert Join(parts[2..], " ") != "" by {
        JoinStartsWithFirst(parts[2..]);
      }
    }
  }

  /** The statistics after one more vertex with name `d.name`: a new entry takes its id and
      starts its range at this vertex. */
  function CountVertex(stats: map<string, RegionStats>, d: RegionData): map<string, RegionStats> {
    stats[d.name := Counted(if d.name in stats then stats[d.name] else Initial(d), d.vertexIndex)]
  }

  /** The entry a name gets at its first valid line, before that line is counted. */
  function Initial(d: RegionData): RegionStats {
    RegionStats(d.id, 0, d.vertexIndex, d.vertexIndex)
  }

  /** An entry after counting one more vertex `v`. */
  function Counted(st: RegionStats, v: int): RegionStats {
    RegionStats(st.id, st.vertexCount + 1, Min(st.minVertex, v), Max(st.maxVertex, v))
  }

  /** The effect of one parsed line on the parser's state. */
  function Absorb(acc: Acc, r: Option<RegionData>): Acc {
    match r
    case None => acc
    case Some(d) => Acc(acc.vertexToRegion[d.vertexIndex := d], CountVertex(acc.regionStats, d))
  }

  /** The state after the parsed lines, taken in order (`forEach`). */
  function FoldRecords(recs: seq<Option<RegionData>>): Acc
    decreases |recs|
  {
    if recs == [] then Acc(map[], map[])
    else Absorb(FoldRecords(recs[..|recs| - 1]), recs[|recs| - 1])
  }

  /** Each line parsed on its own. */
  function ParsedLines(lines: seq<string>, parseInt: IntParser): (recs: seq<Option<RegionData>>)
    ensures |recs| == |lines| && forall i :: 0 <= i < |lines| ==> recs[i] == ParseLine(lines[i], parseInt)
  {
    Map(lines, LineParser(parseInt))
  }

  function LineParser(parseInt: IntParser): string -> Option<RegionData> {
    (line: string) => ParseLine(line, parseInt)
  }

  /** What `parseAALAtlas` returns for a text. */
  function ParsedAtlas(text: string, parseInt: IntParser): AtlasData {
    var acc := FoldRecords(ParsedLines(Lines(text), parseInt));
    AtlasData(acc.vertexToRegion, acc.regionStats, |acc.vertexToRegion|, |acc.regionStats|)
  }

  /** Creating a missing entry and then incrementing it is one `CountVertex`. */
  lemma CountVertexInTwoSteps(stats: map<string, RegionStats>, created: map<string, RegionStats>, d: RegionData)
    requires created == if d.name in stats then stats else stats[d.name := RegionStats(d.id, 0, d.vertexIndex, d.vertexIndex)]
    ensures var st := created[d.name];
      created[d.name := RegionStats(st.id, st.vertexCount + 1, Min(st.minVertex, d.vertexIndex), Max(st.maxVertex, d.vertexIndex))]
        == CountVertex(stats, d)
  {
  }

  /** The `forEach` callback of `parseAALAtlas`: the map and the statistics after one line. */
  method AbsorbLine(line: string, parseInt: IntParser, vertexToRegion0: map<int, RegionData>, regionStats0: map<string, RegionStats>)
    returns (vertexToRegion: map<int, RegionData>, regionStats: map<string, RegionStats>)
    ensures Acc(vertexToRegion, regionStats) == Absorb(Acc(vertexToRegion0, regionStats0), ParseLine(line, parseInt))
  {
    vertexToRegion, regionStats := vertexToRegion0, regionStats0;
    var trimmedLine := Trim(line);
    if !BlankOrComment(trimmedLine) {
      var parts := SplitTrimmedWs(trimmedLine);
      if |parts| >= 2 {
        var vertexIndex := parseInt(parts[0]);
        var regionId := parseInt(parts[1]);
        var regionName := RegionName(parts, regionId);
        if vertexIndex.Some? && regionId.Some? {
          var regionData := RegionData(regionId.value, regionName, vertexIndex.value);
          assert ParseLine(line, parseInt) == Some(regionData);
          vertexToRegion := vertexToRegion[vertexIndex.value := regionData];
          if regionName !in regionStats {
            regionStats := regionStats[regionName := RegionStats(regionId.value, 0, vertexIndex.value, vertexIndex.value)];
          }
          ghost var created := regionStats;
          var st := regionStats[regionName];
          regionStats := regionStats[regionName := RegionStats(
            st.id, st.vertexCount + 1, Min(st.minVertex, vertexIndex.value), Max(st.maxVertex, vertexIndex.value))];
          CountVertexInTwoSteps(regionStats0, created, regionData);
        } else {
          assert ParseLine(line, parseInt).None?;
        }
      } else {
        assert ParseLine(line, parseInt).None?;
      }
    } else {
      assert ParseLine(line, parseInt).None?;
    }
  }

  /** The `forEach` of `parseAALAtlas` over the lines: each absorbed in order. */
  method AbsorbLines(lines: seq<string>, parseInt: IntParser)
    returns (vertexToRegion: map<int, RegionData>, regionStats: map<string, RegionStats>)
    ensures Acc(vertexToRegion, regionStats) == FoldRecords(ParsedLines(lines, parseInt))
  {
    ghost var recs := ParsedLines(lines, parseInt);
    vertexToRegion, regionStats := map[], map[];
    for index := 0 to |lines|
      invariant Acc(vertexToRegion, regionStats) == FoldRecords(recs[..index])
    {
      FoldStep(recs, index);
      vertexToRegion, regionStats := AbsorbLine(lines[index], parseInt, vertexToRegion, regionStats);
    }
    assert recs[..|lines|] == recs;
  }

  lemma FoldStep(recs: seq<Option<RegionData>>, n: nat)
    requires n < |recs|
    ensures FoldRecords(recs[..n + 1]) == Absorb(FoldRecords(recs[..n]), recs[n])
  {
    assert recs[..n + 1][..n] == recs[..n];
  }

  /** `parseAALAtlas`: the lines in order, each absorbed into the vertex map and the statistics. */
  method ParseAALAtlas(atlasText: string, parseInt: IntParser) returns (atlas: AtlasData)
    ensures atlas == ParsedAtlas(atlasText, parseInt)
  {
    var lines := SplitOn(Trim(atlasText), '\n');
    var vertexToRegion, regionStats := AbsorbLines(lines, parseInt);
    atlas := AtlasData(vertexToRegion, regionStats, |vertexToRegion|, |regionStats|);
  }

  /** `parseFreeSurferAnnotation`: a placeholder returning an empty atlas whatever the bytes. */
  function ParseFreeSurferAnnotation(buffer: seq<bv8>): (atlas: AtlasData)
    ensures atlas.totalVertices == 0 && atlas.totalRegions == 0
    ensures atlas.vertexToRegion == map[] && atlas.regionStats == map[]
  {
    AtlasData(map[], map[], 0, 0)
  }

  lemma {:induction false} NoRecordNoState(recs: seq<Option<RegionData>>)
    requires forall i :: 0 <= i < |recs| ==> recs[i].None?
    ensures FoldRecords(recs) == Acc(map[], map[])
    decreases |recs|
  {
    if recs != [] {
      NoRecordNoState(recs[..|recs| - 1]);
    }
  }

  /** The placeholder answers what parsing an atlas text without a single valid line gives. */
  lemma FreeSurferStubIsEmptyParse(buffer: seq<bv8>, text: string, parseInt: IntParser)
    requires forall i :: 0 <= i < |Lines(text)| ==> ParseLine(Lines(text)[i], parseInt).None?
    ensures ParseFreeSurferAnnotation(buffer) == ParsedAtlas(text, parseInt)
  {
    NoRecordNoState(ParsedLines(Lines(text), parseInt));
  }

  lemma {:induction false} NoneChangesNothing(pre: seq<Option<RegionData>>, post: seq<Option<RegionData>>)
    ensures FoldRecords(pre + [None] + post) == FoldRecords(pre + post)
    decreases |post|
  {
    if post == [] {
      assert pre + [None] + post == pre + [None];
      assert (pre + [None])[..|pre|] == pre;
      assert pre + post == pre;
    } else {
      var init := post[..|post| - 1];
      NoneChangesNothing(pre, init);
      assert (pre + [None] + post)[..|pre| + |post|] == pre + [None] + init;
      assert (pre + post)[..|pre| + |post| - 1] == pre + init;
    }
  }

  /** A line the parser ignores (see `ParseLine`) changes neither the map nor the statistics,
      wherever it sits in the text. */
  lemma IgnoredLineChangesNothing(pre: seq<string>, line: string, post: seq<string>, parseInt: IntParser)
    requires ParseLine(line, parseInt).None?
    ensures FoldRecords(ParsedLines(pre + [line] + post, parseInt)) == FoldRecords(ParsedLines(pre + post, parseInt))
  {
    ParsedLinesAppend(pre + [line], post, parseInt);
    ParsedLinesAppend(pre, [line], parseInt);
    ParsedLinesAppend(pre, post, parseInt);
    assert ParsedLines([line], parseInt) == [None];
    NoneChangesNothing(ParsedLines(pre, parseInt), ParsedLines(post, parseInt));
  }

  lemma ParsedLinesAppend(a: seq<string>, b: seq<string>, parseInt: IntParser)
    ensures ParsedLines(a + b, parseInt) == ParsedLines(a, parseInt) + ParsedLines(b, parseInt)
  {
    MapAppend(a, b, LineParser(parseInt));
  }


  /** Parsed line `r` stores a record for vertex `v`. */
  predicate Writes(r: Option<RegionData>, v: int) {
    r.Some? && r.value.vertexIndex == v
  }

  /** Every stored record sits under its own vertex index. */
  lemma {:induction false} KeysAreVertexIndices(recs: seq<Option<RegionData>>)
    ensures forall v :: v in FoldRecords(recs).vertexToRegion ==> FoldRecords(recs).vertexToRegion[v].vertexIndex == v
    decreases |recs|
  {
    if recs != [] {
      KeysAreVertexIndices(recs[..|recs| - 1]);
    }
  }

  /** A vertex is in the map exactly when some valid line names it, and its record is the one
      from the last such line: a later line for the same vertex overwrites an earlier one. */
  lemma {:induction false} LastWriteWins(recs: seq<Option<RegionData>>, v: int)
    ensures v in FoldRecords(recs).vertexToRegion <==> exists i :: 0 <= i < |recs| && Writes(recs[i], v)
    ensures forall i ::
      0 <= i < |recs| && Writes(recs[i], v) && (forall j :: i < j < |recs| ==> !Writes(recs[j], v))
      ==> FoldRecords(recs).vertexToRegion[v] == recs[i].value
    decreases |recs|
  {
    if recs != [] {
      var init := recs[..|recs| - 1];
      LastWriteWins(init, v);
      assert forall i :: 0 <= i < |init| ==> init[i] == recs[i];
    }
  }

  /** Parsed line `r` is a valid line for region name `n`. */
  predicate Named(r: Option<RegionData>, n: string) {
    r.Some? && r.value.name == n
  }

  /** How many valid lines carry the name `n`. */
  function CountNamed(recs: seq<Option<RegionData>>, n: string): nat
    decreases |recs|
  {
    if recs == [] then 0
    else CountNamed(recs[..|recs| - 1], n) + (if Named(recs[|recs| - 1], n) then 1 else 0)
  }

  /** A name has statistics exactly when some valid line carries it, and its `vertexCount`
      counts all those lines, a vertex listed twice included. */
  lemma {:induction false} StatsCountLines(recs: seq<Option<RegionData>>, n: string)
    ensures n in FoldRecords(recs).regionStats <==> CountNamed(recs, n) > 0
    ensures n in FoldRecords(recs).regionStats ==> FoldRecords(recs).regionStats[n].vertexCount == CountNamed(recs, n)
    decreases |recs|
  {
    if recs != [] {
      StatsCountLines(recs[..|recs| - 1], n);
    }
  }

  /** The `id` of a name's statistics is the id of the first valid line carrying that name. */
  lemma {:induction false} StatsIdFromFirstLine(recs: seq<Option<RegionData>>, n: string)
    ensures n in FoldRecords(recs).regionStats ==>
      exists i :: 0 <= i < |recs| && Named(recs[i], n) && (forall j :: 0 <= j < i ==> !Named(recs[j], n))
        && FoldRecords(recs).regionStats[n].id == recs[i].value.id
    decreases |recs|
  {
    if recs != [] {
      var init := recs[..|recs| - 1];
      StatsIdFromFirstLine(init, n);
      StatsCountLines(init, n);
      assert forall i :: 0 <= i < |init| ==> init[i] == recs[i];
      if n in FoldRecords(recs).regionStats && n !in FoldRecords(init).regionStats {
        NoneNamedBefore(init, n);
        assert Named(recs[|recs| - 1], n);
      }
    }
  }

  lemma {:induction false} NoneNamedBefore(recs: seq<Option<RegionData>>, n: string)
    requires CountNamed(recs, n) == 0
    ensures forall j :: 0 <= j < |recs| ==> !Named(recs[j], n)
    decreases |recs|
  {
    if recs != [] {
      var init := recs[..|recs| - 1];
      NoneNamedBefore(init, n);
      assert forall j :: 0 <= j < |init| ==> init[j] == recs[j];
    }
  }

  /** `minVertex` and `maxVertex` bracket the vertex index of every valid line carrying the
      name, and both are indices actually seen. */
  lemma {:induction false} StatsRangeBrackets(recs: seq<Option<RegionData>>, n: string)
    ensures n in FoldRecords(recs).regionStats ==>
      var st := FoldRecords(recs).regionStats[n];
      && st.minVertex <= st.maxVertex
      && (forall i :: 0 <= i < |recs| && Named(recs[i], n) ==> st.minVertex <= recs[i].value.vertexIndex <= st.maxVertex)
      && (exists i :: 0 <= i < |recs| && Named(recs[i], n) && recs[i].value.vertexIndex == st.minVertex)
      && (exists i :: 0 <= i < |recs| && Named(recs[i], n) && recs[i].value.vertexIndex == st.maxVertex)
    decreases |recs|
  {
    if recs != [] {
      var init := recs[..|recs| - 1];
      StatsRangeBrackets(init, n);
      StatsCountLines(init, n);
      assert forall i :: 0 <= i < |init| ==> init[i] == recs[i];
      if n in FoldRecords(recs).regionStats && n !in FoldRecords(init).regionStats {
        NoneNamedBefore(init, n);
      }
    }
  }

  /** How many lines are valid. */
  function ValidCount(recs: seq<Option<RegionData>>): nat
    decreases |recs|
  {
    if recs == [] then 0 else ValidCount(recs[..|recs| - 1]) + (if recs[|recs| - 1].Some? then 1 else 0)
  }

  /** The sum of `vertexCount` over all names. */
  ghost function SumCounts(stats: map<string, RegionStats>): nat
    decreases |stats|
  {
    if |stats| == 0 then 0
    else
      var n := Pick(stats.Keys);
      stats[n].vertexCount + SumCounts(stats - {n})
  }

  ghost function Pick(names: set<string>): (n: string)
    requires names != {}
    ensures n in names
  {
    var n :| n in names; n
  }

  lemma {:induction false} SumCountsRemove(stats: map<string, RegionStats>, n: string)
    requires n in stats
    ensures SumCounts(stats) == stats[n].vertexCount + SumCounts(stats - {n})
    decreases |stats|
  {
    var m := Pick(stats.Keys);
    if m != n {
      var rest := stats - {m};
      assert n in rest;
      SumCountsRemove(rest, n);
      SumCountsRemove(stats - {n}, m);
      assert rest - {n} == (stats - {n}) - {m};
    }
  }

  lemma SumCountsUpdate(stats: map<string, RegionStats>, n: string, st: RegionStats)
    ensures SumCounts(stats[n := st]) == st.vertexCount + SumCounts(stats - {n})
  {
    SumCountsRemove(stats[n := st], n);
    assert stats[n := st] - {n} == stats - {n};
  }

  lemma SumCountsCountVertex(stats: map<string, RegionStats>, d: RegionData)
    ensures SumCounts(CountVertex(stats, d)) == SumCounts(stats) + 1
  {
    var st := if d.name in stats then stats[d.name] else Initial(d);
    SumCountsUpdate(stats, d.name, Counted(st, d.vertexIndex));
    if d.name in stats {
      SumCountsRemove(stats, d.name);
    } else {
      SumCountsRemoveAbsent(stats, d.name);
    }
  }

  lemma SumCountsRemoveAbsent(stats: map<string, RegionStats>, n: string)
    requires n !in stats
    ensures SumCounts(stats - {n}) == SumCounts(stats)
  {
    assert stats - {n} == stats;
  }

  /** Every valid line adds one to exactly one name's count, so the counts add up to the
      number of valid lines. */
  lemma {:induction false} CountsAddUp(recs: seq<Option<RegionData>>)
    ensures SumCounts(FoldRecords(recs).regionStats) == ValidCount(recs)
    decreases |recs|
  {
    if recs != [] {
      var init := recs[..|recs| - 1];
      CountsAddUp(init);
      if recs[|recs| - 1].Some? {
        SumCountsCountVertex(FoldRecords(init).regionStats, recs[|recs| - 1].value);
      }
    }
  }

  /** Each valid line adds at most one vertex to the map. */
  lemma {:induction false} MapSizeAtMostValidLines(recs: seq<Option<RegionData>>)
    ensures |FoldRecords(recs).vertexToRegion| <= ValidCount(recs)
    decreases |recs|
  {
    if recs != [] {
      MapSizeAtMostValidLines(recs[..|recs| - 1]);
    }
  }

  /** `totalVertices` is the map's size and `totalRegions` the number of names; a vertex listed
      on several lines is stored once but counted each time, so `totalVertices` never exceeds
      the sum of the `vertexCount`s. */
  lemma TotalVerticesAtMostSumOfCounts(text: string, parseInt: IntParser)
    ensures var atlas := ParsedAtlas(text, parseInt);
      && atlas.totalVertices == |atlas.vertexToRegion|
      && atlas.totalRegions == |atlas.regionStats|
      && atlas.totalVertices <= SumCounts(atlas.regionStats)
  {
    CountsAddUp(ParsedLines(Lines(text), parseInt));
    MapSizeAtMostValidLines(ParsedLines(Lines(text), parseInt));
  }

  // ---------------------------------------------------------------------------------------
  // parseLabelFile

  /** One entry of a label file. */
  datatype Label = Label(name: string, id: Option<int>, color: string)

  /** The label one line of a label file contributes, or `None` when the line is skipped. */
  function ParseLabelLine(line: string, parseInt: IntParser): Option<Label> {
    var t := Trim(line);
    if BlankOrComment(t) then None
    else
      var parts := SplitTrimmedWs(t);
      if |parts| < 2 then None
      else Some(Label(parts[0], parseInt(parts[1]), if |parts| > 2 then parts[2] else "#808080"))
  }

  /** A label line is kept exactly when, trimmed, it is neither blank nor a comment and has at
      least two tokens ... */
  lemma LabelLineKept(line: string, parseInt: IntParser)
    ensures ParseLabelLine(line, parseInt).Some? <==> !BlankOrComment(Trim(line)) && |Words(Trim(line))| >= 2
  {
  }

  /** ... and then the name is its first token, the id the second token parsed with no `NaN`
      check, and the colour the third token or `#808080`. */
  lemma LabelLineFields(line: string, parseInt: IntParser)
    requires ParseLabelLine(line, parseInt).Some?
    ensures var r, parts := ParseLabelLine(line, parseInt).value, Words(Trim(line));
      && r.name == parts[0]
      && r.id == parseInt(parts[1])
      && r.color == (if |parts| > 2 then parts[2] else "#808080")
  {
  }

  /** The labels object after the parsed lines, keyed by parsed id (`NaN` included). */
  function FoldLabels(ls: seq<Option<Label>>): map<Option<int>, Label>
    decreases |ls|
  {
    if ls == [] then map[]
    else
      AbsorbLabel(FoldLabels(ls[..|ls| - 1]), ls[|ls| - 1])
  }

  /** One step of the fold: a kept line writes its label under its parsed id. */
  function AbsorbLabel(labels: map<Option<int>, Label>, l: Option<Label>): map<Option<int>, Label> {
    match l
    case None => labels
    case Some(l) => labels[l.id := l]
  }

  function ParsedLabelLines(lines: seq<string>, parseInt: IntParser): (ls: seq<Option<Label>>)
    ensures |ls| == |lines| && forall i :: 0 <= i < |lines| ==> ls[i] == ParseLabelLine(lines[i], parseInt)
  {
    Map(lines, LabelLineParser(parseInt))
  }

  function LabelLineParser(parseInt: IntParser): string -> Option<Label> {
    (line: string) => ParseLabelLine(line, parseInt)
  }

  /** The `forEach` callback of `parseLabelFile`. */
  method AbsorbLabelLine(line: string, parseInt: IntParser, labels0: map<Option<int>, Label>)
    returns (labels: map<Option<int>, Label>)
    ensures labels == AbsorbLabel(labels0, ParseLabelLine(line, parseInt))
  {
    labels := labels0;
    var trimmedLine := Trim(line);
    if BlankOrComment(trimmedLine) {
      return;
    }
    var parts := SplitTrimmedWs(trimmedLine);
    if |parts| >= 2 {
      var regionName := parts[0];
      var regionId := parseInt(parts[1]);
      var color := if |parts| > 2 then parts[2] else "#808080";
      labels := labels[regionId := Label(regionName, regionId, color)];
    }
  }

  /** `parseLabelFile`. */
  method ParseLabelFile(labelText: string, parseInt: IntParser) returns (labels: map<Option<int>, Label>)
    ensures labels == FoldLabels(ParsedLabelLines(Lines(labelText), parseInt))
  {
    var lines := SplitOn(Trim(labelText), '\n');
    labels := AbsorbLabelLines(lines, parseInt);
  }

  /** The `forEach` of `parseLabelFile` over the lines: each absorbed in order. */
  method AbsorbLabelLines(lines: seq<string>, parseInt: IntParser) returns (labels: map<Option<int>, Label>)
    ensures labels == FoldLabels(ParsedLabelLines(lines, parseInt))
  {
    ghost var ls := ParsedLabelLines(lines, parseInt);
    labels := map[];
    for index := 0 to |lines|
      invariant labels == FoldLabels(ls[..index])
    {
      LabelFoldStep(ls, index);
      labels := AbsorbLabelLine(lines[index], parseInt, labels);
    }
    assert ls[..|lines|] == ls;
  }

  lemma LabelFoldStep(ls: seq<Option<Label>>, n: nat)
    requires n < |ls|
    ensures FoldLabels(ls[..n + 1]) == AbsorbLabel(FoldLabels(ls[..n]), ls[n])
  {
    assert ls[..n + 1][..n] == ls[..n];
  }

  /** A label file is keyed by the parsed second token with no `NaN` check: an id is a key
      exactly when some kept line parses to it, and the entry is the last such line's. */
  lemma {:induction false} LabelsLastWriteWins(ls: seq<Option<Label>>, k: Option<int>)
    ensures k in FoldLabels(ls) <==> exists i :: 0 <= i < |ls| && ls[i].Some? && ls[i].value.id == k
    ensures forall i ::
      0 <= i < |ls| && ls[i].Some? && ls[i].value.id == k
      && (forall j :: i < j < |ls| ==> !(ls[j].Some? && ls[j].value.id == k))
      ==> FoldLabels(ls)[k] == ls[i].value
    decreases |ls|
  {
    if ls != [] {
      var init := ls[..|ls| - 1];
      LabelsLastWriteWins(init, k);
      assert forall i :: 0 <= i < |init| ==> init[i] == ls[i];
    }
  }

  // ---------------------------------------------------------------------------------------
  // getRegionFromFace

  /** The parts of a three.js geometry the pipeline reads: the index buffer of the faces and the
      number of vertex positions, either of which may be missing. */
  datatype Geometry = Geometry(index: Option<seq<int>>, positionCount: Option<nat>)

  /** `index.getX(i)`: `undefined` outside the buffer. */
  function GetX(index: seq<int>, i: int): Option<int> {
    if 0 <= i < |index| then Some(index[i]) else None
  }

  /** `vertexToRegion.get(v)`. */
  function Lookup(vertexToRegion: map<int, RegionData>, v: Option<int>): Option<RegionData> {
    if v.Some? && v.value in vertexToRegion then Some(vertexToRegion[v.value]) else None
  }

  /** The records of the three corners of face `f`, each present or not. */
  function Corners(vertexToRegion: map<int, RegionData>, index: seq<int>, f: int): seq<Option<RegionData>> {
    [Lookup(vertexToRegion, GetX(index, f * 3)),
     Lookup(vertexToRegion, GetX(index, f * 3 + 1)),
     Lookup(vertexToRegion, GetX(index, f * 3 + 2))]
  }

  function NameOf(r: RegionData): string {
    r.name
  }

  /** The labelled corners of face `f`, or `None` when the inputs are missing. */
  function FaceLabels(faceIndex: int, geometry: Option<Geometry>, vertexToRegion: Option<map<int, RegionData>>): Option<seq<RegionData>> {
    if geometry.None? || vertexToRegion.None? || geometry.value.index.None? then None
    else Some(Present(Corners(vertexToRegion.value, geometry.value.index.value, faceIndex)))
  }

  /** What `getRegionFromFace` returns. */
  function RegionFromFace(faceIndex: int, geometry: Option<Geometry>, vertexToRegion: Option<map<int, RegionData>>): Option<RegionData> {
    match FaceLabels(faceIndex, geometry, vertexToRegion)
    case None => None
    case Some(rs) => if rs == [] then None else Some(rs[WinnerIndex(rs, NameOf)])
  }

  /** `null` exactly when an input is missing or none of the three corners is labelled;
      otherwise the result is one of the corners' records, and it is the winner of the vote. */
  lemma FaceVote(faceIndex: int, geometry: Option<Geometry>, vertexToRegion: Option<map<int, RegionData>>)
    ensures RegionFromFace(faceIndex, geometry, vertexToRegion).None? <==>
      || geometry.None? || vertexToRegion.None? || geometry.value.index.None?
      || forall c :: 0 <= c < 3 ==> Corners(vertexToRegion.value, geometry.value.index.value, faceIndex)[c].None?
    ensures RegionFromFace(faceIndex, geometry, vertexToRegion).Some? ==>
      var rs := FaceLabels(faceIndex, geometry, vertexToRegion).value;
      var r := RegionFromFace(faceIndex, geometry, vertexToRegion).value;
      && Some(r) in Corners(vertexToRegion.value, geometry.value.index.value, faceIndex)
      && exists i :: IsWinnerAt(rs, NameOf, i) && rs[i] == r
  {
  }

  /** A name carried by two of a face's labelled corners is the name of the face, whatever the
      third corner holds. */
  lemma FaceMajority(faceIndex: int, geometry: Option<Geometry>, vertexToRegion: Option<map<int, RegionData>>, n: string)
    requires FaceLabels(faceIndex, geometry, vertexToRegion).Some?
    requires CountKey(FaceLabels(faceIndex, geometry, vertexToRegion).value, NameOf, n) >= 2
    ensures RegionFromFace(faceIndex, geometry, vertexToRegion).Some?
    ensures RegionFromFace(faceIndex, geometry, vertexToRegion).value.name == n
  {
    var rs := FaceLabels(faceIndex, geometry, vertexToRegion).value;
    assert |rs| <= 3;
    StrictMajorityWins(rs, NameOf, n);
  }

  /** `getRegionFromFace`: the majority label of the face's three corners. */
  method GetRegionFromFace(faceIndex: int, geometry: Option<Geometry>, vertexToRegion: Option<map<int, RegionData>>)
    returns (region: Option<RegionData>)
    ensures region == RegionFromFace(faceIndex, geometry, vertexToRegion)
  {
    if geometry.None? || vertexToRegion.None? {
      return None;
    }
    var index := geometry.value.index;
    if index.None? {
      return None;
    }
    var region1 := Lookup(vertexToRegion.value, GetX(index.value, faceIndex * 3));
    var region2 := Lookup(vertexToRegion.value, GetX(index.value, faceIndex * 3 + 1));
    var region3 := Lookup(vertexToRegion.value, GetX(index.value, faceIndex * 3 + 2));
    var regions := Present([region1, region2, region3]);
    if |regions| == 0 {
      return None;
    }
    var selectedRegion := MostCommon(regions, NameOf);
    return Some(selectedRegion);
  }

  // ---------------------------------------------------------------------------------------
  // hexToRGB

  /** A colour with channels in `[0, 1]` when it comes from a hex string. */
  datatype RGB = RGB(r: real, g: real, b: real)

  predicate InUnitCube(c: RGB) {
    0.0 <= c.r <= 1.0 && 0.0 <= c.g <= 1.0 && 0.0 <= c.b <= 1.0
  }

  /** The colour `hexToRGB` answers for a string its pattern rejects. */
  const FallbackGrey := RGB(0.5, 0.5, 0.5)

  predicate IsHexDigit(c: char) {
    '0' <= c <= '9' || 'a' <= c <= 'f' || 'A' <= c <= 'F'
  }

  predicate AllHexDigits(s: string) {
    forall i :: 0 <= i < |s| ==> IsHexDigit(s[i])
  }

  function HexDigitValue(c: char): (v: nat)
    requires IsHexDigit(c)
    ensures v < 16
  {
    if '0' <= c <= '9' then c as int - '0' as int
    else if 'a' <= c <= 'f' then c as int - 'a' as int + 10
    else c as int - 'A' as int + 10
  }

  /** The six digits the pattern `^#?([a-f\d]{2}){3}$` (case-insensitive) captures, or `None`
      when the string does not match. */
  function HexDigits(hex: string): (d: Option<string>)
    ensures d.Some? ==> |d.value| == 6 && AllHexDigits(d.value)
    ensures d.Some? <==> (|hex| == 7 && hex[0] == '#' && AllHexDigits(hex[1..])) || (|hex| == 6 && AllHexDigits(hex))
  {
    if |hex| == 7 && hex[0] == '#' && AllHexDigits(hex[1..]) then Some(hex[1..])
    else if |hex| == 6 && AllHexDigits(hex) then Some(hex)
    else None
  }

  /** `parseInt(pair, 16)` of the `k`-th captured pair. */
  function ByteAt(d: string, k: nat): (b: nat)
    requires |d| == 6 && AllHexDigits(d) && k < 3
    ensures b < 256
  {
    16 * HexDigitValue(d[2 * k]) + HexDigitValue(d[2 * k + 1])
  }

  /** `hexToRGB`: each byte divided by 255, or the fallback grey. */
  function HexToRGB(hex: string): (c: RGB)
    ensures InUnitCube(c)
    ensures HexDigits(hex).None? ==> c == FallbackGrey
  {
    match HexDigits(hex)
    case None => FallbackGrey
    case Some(d) => RGB(ByteAt(d, 0) as real / 255.0, ByteAt(d, 1) as real / 255.0, ByteAt(d, 2) as real / 255.0)
  }

  /** No byte divided by 255 is one half, so the grey is answered only for a rejected string:
      a valid colour can never be mistaken for the fallback. */
  lemma GreyOnlyWhenRejected(hex: string)
    ensures HexToRGB(hex) == FallbackGrey <==> HexDigits(hex).None?
  {
    if HexDigits(hex).Some? {
      var b := ByteAt(HexDigits(hex).value, 0);
      assert b as real / 255.0 != 0.5 by {
        assert 2 * b != 255;
      }
    }
  }

  function UpperHexDigit(v: nat): (c: char)
    requires v < 16
    ensures IsHexDigit(c) && HexDigitValue(c) == v
  {
    if v < 10 then ('0' as int + v) as char else ('A' as int + v - 10) as char
  }

  /** A byte as two upper-case hex digits. */
  function HexByte(b: nat): (s: string)
    requires b < 256
    ensures |s| == 2 && AllHexDigits(s) && 16 * HexDigitValue(s[0]) + HexDigitValue(s[1]) == b
  {
    [UpperHexDigit(b / 16), UpperHexDigit(b % 16)]
  }

  /** The `#RRGGBB` notation the colour tables are written in. */
  function FormatHex(r: nat, g: nat, b: nat): string
    requires r < 256 && g < 256 && b < 256
  {
    "#" + HexByte(r) + HexByte(g) + HexByte(b)
  }

  /** `hexToRGB` reads back the bytes of every `#RRGGBB` string, and of the bare `RRGGBB` form
      the optional `#` of the pattern also admits. */
  lemma HexRoundTrip(r: nat, g: nat, b: nat)
    requires r < 256 && g < 256 && b < 256
    ensures HexToRGB(FormatHex(r, g, b)) == RGB(r as real / 255.0, g as real / 255.0, b as real / 255.0)
    ensures HexToRGB(HexByte(r) + HexByte(g) + HexByte(b)) == RGB(r as real / 255.0, g as real / 255.0, b as real / 255.0)
  {
    var hex := FormatHex(r, g, b);
    var d := hex[1..];
    assert d == HexByte(r) + HexByte(g) + HexByte(b);
    assert AllHexDigits(d);
    assert HexDigits(hex) == Some(d);
    assert ByteAt(d, 0) == r && ByteAt(d, 1) == g && ByteAt(d, 2) == b;
    assert d[0] != '#';
    assert HexDigits(d) == Some(d);
  }

  /** Lower-casing keeps hex digits hex digits, with the same value. */
  lemma LowerHexDigit(c: char)
    ensures IsHexDigit(LowerChar(c)) <==> IsHexDigit(c)
    ensures IsHexDigit(c) ==> HexDigitValue(LowerChar(c)) == HexDigitValue(c)
  {
  }

  lemma AllHexDigitsLower(s: string)
    ensures AllHexDigits(Lower(s)) <==> AllHexDigits(s)
  {
    forall i | 0 <= i < |s| {
      LowerHexDigit(s[i]);
    }
  }

  /** The digits captured from the lower-cased string are the lower-cased digits. */
  lemma HexDigitsLower(hex: string)
    ensures HexDigits(Lower(hex)).Some? <==> HexDigits(hex).Some?
    ensures HexDigits(hex).Some? ==> HexDigits(Lower(hex)).value == Lower(HexDigits(hex).value)
  {
    var low := Lower(hex);
    AllHexDigitsLower(hex);
    if |hex| == 7 {
      assert low[1..] == Lower(hex[1..]);
      AllHexDigitsLower(hex[1..]);
    }
  }

  lemma ByteAtLower(d: string, k: nat)
    requires |d| == 6 && AllHexDigits(d) && k < 3
    ensures AllHexDigits(Lower(d)) && ByteAt(Lower(d), k) == ByteAt(d, k)
  {
    AllHexDigitsLower(d);
    LowerHexDigit(d[2 * k]);
    LowerHexDigit(d[2 * k + 1]);
  }

  /** The pattern is case-insensitive: lower-casing the string changes nothing. */
  lemma HexToRGBIgnoresCase(hex: string)
    ensures HexToRGB(Lower(hex)) == HexToRGB(hex)
  {
    HexDigitsLower(hex);
    if HexDigits(hex).Some? {
      var d := HexDigits(hex).value;
      ByteAtLower(d, 0);
      ByteAtLower(d, 1);
      ByteAtLower(d, 2);
    }
  }

  // ---------------------------------------------------------------------------------------
  // createColorMapFromRegions

  /** A colour-map object. Names and ids share its key space, as they do in JavaScript: an id is
      stored under its decimal text. */
  type ColorMap = map<string, RGB>

  /** The fields of a region record that `createColorMapFromRegions` reads. `id` is `None` when
      the field is missing or `NaN`. */
  datatype ColorSource = ColorSource(name: string, id: Option<int>, color: string)

  /** `region.id` is truthy: present, not `NaN` and not 0. */
  predicate HasTruthyId(r: ColorSource) {
    r.id.Some? && r.id.value != 0
  }

  /** The keys `r` is written under. */
  predicate WritesKey(r: ColorSource, key: string) {
    r.name == key || (HasTruthyId(r) && IntToString(r.id.value) == key)
  }

  function AddRegionColor(colorMap: ColorMap, r: ColorSource): ColorMap {
    var named := colorMap[r.name := HexToRGB(r.color)];
    if HasTruthyId(r) then named[IntToString(r.id.value) := HexToRGB(r.color)] else named
  }

  /** The colour map after the given regions, in order. */
  function ColorMapOf(regions: seq<ColorSource>): ColorMap
    decreases |regions|
  {
    if regions == [] then map[] else AddRegionColor(ColorMapOf(regions[..|regions| - 1]), regions[|regions| - 1])
  }

  /** `createColorMapFromRegions`, over the regions in `Object.values` order. */
  method CreateColorMapFromRegions(regions: seq<ColorSource>) returns (colorMap: ColorMap)
    ensures colorMap == ColorMapOf(regions)
  {
    colorMap := map[];
    for k := 0 to |regions|
      invariant colorMap == ColorMapOf(regions[..k])
    {
      assert regions[..k + 1][..k] == regions[..k];
      var region := regions[k];
      colorMap := colorMap[region.name := HexToRGB(region.color)];
      if region.id.Some? && region.id.value != 0 {
        colorMap := colorMap[IntToString(region.id.value) := HexToRGB(region.color)];
      }
    }
    assert regions[..|regions|] == regions;
  }

  /** A key is present exactly when some region writes it. */
  lemma {:induction false} ColorMapHasKey(regions: seq<ColorSource>, key: string)
    ensures key in ColorMapOf(regions) <==> exists i :: 0 <= i < |regions| && WritesKey(regions[i], key)
    decreases |regions|
  {
    if regions != [] {
      var init := regions[..|regions| - 1];
      ColorMapHasKey(init, key);
      assert forall i :: 0 <= i < |init| ==> init[i] == regions[i];
    }
  }

  /** A present key holds the colour of the last region that writes it. */
  lemma {:induction false} ColorMapLastWriter(regions: seq<ColorSource>, key: string, i: nat)
    requires i < |regions| && WritesKey(regions[i], key)
    requires forall j :: i < j < |regions| ==> !WritesKey(regions[j], key)
    ensures key in ColorMapOf(regions)
    ensures ColorMapOf(regions)[key] == HexToRGB(regions[i].color)
    decreases |regions|
  {
    var init := regions[..|regions| - 1];
    if i < |regions| - 1 {
      assert init[i] == regions[i];
      assert forall j :: i < j < |init| ==> init[j] == regions[j];
      ColorMapLastWriter(init, key, i);
    }
  }

  /** Every colour of the map lies in the unit cube. */
  lemma {:induction false} ColorMapInUnitCube(regions: seq<ColorSource>, key: string)
    requires key in ColorMapOf(regions)
    ensures InUnitCube(ColorMapOf(regions)[key])
    decreases |regions|
  {
    var init := regions[..|regions| - 1];
    var last := regions[|regions| - 1];
    if !WritesKey(last, key) {
      ColorMapInUnitCube(init, key);
    }
  }

  /** With distinct names, none of which is the decimal text of an id, every region finds its own
      colour under its name. */
  lemma NameFindsOwnColor(regions: seq<ColorSource>, i: nat)
    requires i < |regions|
    requires forall j, k :: 0 <= j < k < |regions| ==> regions[j].name != regions[k].name
    requires forall j, k :: 0 <= j < |regions| && 0 <= k < |regions| && HasTruthyId(regions[k]) ==> regions[j].name != IntToString(regions[k].id.value)
    ensures regions[i].name in ColorMapOf(regions)
    ensures ColorMapOf(regions)[regions[i].name] == HexToRGB(regions[i].color)
  {
    assert WritesKey(regions[i], regions[i].name);
    forall j | i < j < |regions|
      ensures !WritesKey(regions[j], regions[i].name)
    {
      assert regions[j].name != regions[i].name;
    }
    ColorMapLastWriter(regions, regions[i].name, i);
  }

  // ---------------------------------------------------------------------------------------
  // applyAtlasColors

  /** The colour of a vertex no record labels. */
  const DefaultColor := RGB(0.7, 0.7, 0.7)

  function RealMin(a: real, b: real): real {
    if a <= b then a else b
  }

  /** The colour looked up for a record: by name first, then by id. */
  function BaseColor(d: RegionData, colorMap: Option<ColorMap>): RGB {
    if colorMap.Some? && d.name in colorMap.value then colorMap.value[d.name]
    else if colorMap.Some? && IntToString(d.id) in colorMap.value then colorMap.value[IntToString(d.id)]
    else DefaultColor
  }

  /** The brightening of a record: 1.5 when it is selected, 1.2 when hovered, 1.0 otherwise.
      `selected` and `hovered` are the names of the selected and hovered regions. */
  function Multiplier(d: RegionData, selected: Option<string>, hovered: Option<string>): real {
    if selected == Some(d.name) then 1.5 else if hovered == Some(d.name) then 1.2 else 1.0
  }

  /** `Math.min(x * m, 1)`. */
  function Capped(x: real, m: real): real {
    RealMin(x * m, 1.0)
  }

  /** Each channel multiplied, then capped at 1. */
  function Shade(c: RGB, m: real): RGB {
    RGB(Capped(c.r, m), Capped(c.g, m), Capped(c.b, m))
  }

  /** The colour written for vertex `i`. */
  function VertexColor(vertexToRegion: map<int, RegionData>, colorMap: Option<ColorMap>,
                       selected: Option<string>, hovered: Option<string>, i: int): RGB
  {
    if i in vertexToRegion then
      var d := vertexToRegion[i];
      Shade(BaseColor(d, colorMap), Multiplier(d, selected, hovered))
    else Shade(DefaultColor, 1.0)
  }

  function Channel(c: RGB, k: int): real {
    if k == 0 then c.r else if k == 1 then c.g else c.b
  }

  /** The colour buffer: three channels per vertex, vertex after vertex. */
  function ColorBuffer(count: nat, vertexToRegion: map<int, RegionData>, colorMap: Option<ColorMap>,
                       selected: Option<string>, hovered: Option<string>): (buf: seq<real>)
    ensures |buf| == 3 * count
  {
    if count == 0 then []
    else
      var c := VertexColor(vertexToRegion, colorMap, selected, hovered, count - 1);
      ColorBuffer(count - 1, vertexToRegion, colorMap, selected, hovered) + [c.r, c.g, c.b]
  }

  /** Channel `k` of vertex `i` sits at position `3 * i + k`. */
  lemma {:induction false} ColorBufferLayout(count: nat, vertexToRegion: map<int, RegionData>, colorMap: Option<ColorMap>,
                                             selected: Option<string>, hovered: Option<string>, i: nat, k: nat)
    requires i < count && k < 3
    ensures ColorBuffer(count, vertexToRegion, colorMap, selected, hovered)[3 * i + k]
         == Channel(VertexColor(vertexToRegion, colorMap, selected, hovered, i), k)
    decreases count
  {
    if i < count - 1 {
      ColorBufferLayout(count - 1, vertexToRegion, colorMap, selected, hovered, i, k);
    }
  }

  /** `applyAtlasColors`: the buffer it installs on the geometry, or `None` when it returns
      without touching it. */
  method ApplyAtlasColors(geometry: Option<Geometry>, vertexToRegion: Option<map<int, RegionData>>,
                          colorMap: Option<ColorMap>, selected: Option<string>, hovered: Option<string>)
    returns (colors: Option<seq<real>>)
    ensures colors.None? <==> geometry.None? || vertexToRegion.None? || geometry.value.positionCount.None?
    ensures colors.Some? ==> colors.value == ColorBuffer(geometry.value.positionCount.value, vertexToRegion.value, colorMap, selected, hovered)
  {
    if geometry.None? || vertexToRegion.None? {
      return None;
    }
    var positions := geometry.value.positionCount;
    if positions.None? {
      return None;
    }
    var buffer := new real[positions.value * 3];
    for i := 0 to positions.value
      invariant buffer[..3 * i] == ColorBuffer(i, vertexToRegion.value, colorMap, selected, hovered)
    {
      var r, g, b := VertexChannels(vertexToRegion.value, colorMap, selected, hovered, i);
      ghost var done := buffer[..3 * i];
      buffer[i * 3] := r;
      buffer[i * 3 + 1] := g;
      buffer[i * 3 + 2] := b;
      assert buffer[..3 * i] == done;
      assert buffer[..3 * (i + 1)] == done + [r, g, b];
    }
    assert buffer[..] == buffer[..3 * positions.value];
    return Some(buffer[..]);
  }

  /** The body of the loop of `applyAtlasColors`: the three channels of vertex `i`. */
  method VertexChannels(vertexToRegion: map<int, RegionData>, colorMap: Option<ColorMap>,
                        selected: Option<string>, hovered: Option<string>, i: int)
    returns (r: real, g: real, b: real)
    ensures RGB(r, g, b) == VertexColor(vertexToRegion, colorMap, selected, hovered, i)
  {
    var color := DefaultColor;
    var multiplier := 1.0;
    if i in vertexToRegion {
      var regionData := vertexToRegion[i];
      if colorMap.Some? && regionData.name in colorMap.value {
        color := colorMap.value[regionData.name];
      } else if colorMap.Some? && IntToString(regionData.id) in colorMap.value {
        color := colorMap.value[IntToString(regionData.id)];
      }
      if selected == Some(regionData.name) {
        multiplier := 1.5;
      } else if hovered == Some(regionData.name) {
        multiplier := 1.2;
      }
    }
    r := Capped(color.r, multiplier);
    g := Capped(color.g, multiplier);
    b := Capped(color.b, multiplier);
  }

  /** All colours of a map are non-negative (as every colour `hexToRGB` makes is). */
  predicate NonNegativeColors(colorMap: Option<ColorMap>) {
    colorMap.Some? ==> forall k :: k in colorMap.value ==> 0.0 <= colorMap.value[k].r && 0.0 <= colorMap.value[k].g && 0.0 <= colorMap.value[k].b
  }

  /** Every channel of a vertex colour is capped at 1. */
  lemma VertexColorCapped(vertexToRegion: map<int, RegionData>, colorMap: Option<ColorMap>,
                          selected: Option<string>, hovered: Option<string>, i: int, k: nat)
    ensures Channel(VertexColor(vertexToRegion, colorMap, selected, hovered, i), k) <= 1.0
  {
  }

  /** No channel of a vertex colour is negative when no colour of the map is. */
  lemma VertexColorNonNegative(vertexToRegion: map<int, RegionData>, colorMap: Option<ColorMap>,
                               selected: Option<string>, hovered: Option<string>, i: int, k: nat)
    requires NonNegativeColors(colorMap)
    ensures 0.0 <= Channel(VertexColor(vertexToRegion, colorMap, selected, hovered, i), k)
  {
    if i in vertexToRegion {
      var d := vertexToRegion[i];
      var c := BaseColor(d, colorMap);
      assert 0.0 <= c.r && 0.0 <= c.g && 0.0 <= c.b;
    }
  }

  /** The cap holds for every entry of the buffer. */
  lemma ColorBufferCapped(count: nat, vertexToRegion: map<int, RegionData>, colorMap: Option<ColorMap>,
                          selected: Option<string>, hovered: Option<string>)
    ensures forall k :: 0 <= k < 3 * count ==> ColorBuffer(count, vertexToRegion, colorMap, selected, hovered)[k] <= 1.0
  {
    forall k | 0 <= k < 3 * count
      ensures ColorBuffer(count, vertexToRegion, colorMap, selected, hovered)[k] <= 1.0
    {
      assert 3 * (k / 3) + k % 3 == k;
      ColorBufferLayout(count, vertexToRegion, colorMap, selected, hovered, k / 3, k % 3);
      VertexColorCapped(vertexToRegion, colorMap, selected, hovered, k / 3, k % 3);
    }
  }

  /** No entry of the buffer is negative when no colour of the map is. */
  lemma ColorBufferNonNegative(count: nat, vertexToRegion: map<int, RegionData>, colorMap: Option<ColorMap>,
                               selected: Option<string>, hovered: Option<string>)
    requires NonNegativeColors(colorMap)
    ensures forall k :: 0 <= k < 3 * count ==> 0.0 <= ColorBuffer(count, vertexToRegion, colorMap, selected, hovered)[k]
  {
    forall k | 0 <= k < 3 * count
      ensures 0.0 <= ColorBuffer(count, vertexToRegion, colorMap, selected, hovered)[k]
    {
      assert 3 * (k / 3) + k % 3 == k;
      ColorBufferLayout(count, vertexToRegion, colorMap, selected, hovered, k / 3, k % 3);
      VertexColorNonNegative(vertexToRegion, colorMap, selected, hovered, k / 3, k % 3);
    }
  }

  /** Colour maps built by `createColorMapFromRegions` are non-negative. */
  lemma ColorMapOfIsNonNegative(regions: seq<ColorSource>)
    ensures NonNegativeColors(Some(ColorMapOf(regions)))
  {
    forall key | key in ColorMapOf(regions)
      ensures InUnitCube(ColorMapOf(regions)[key])
    {
      ColorMapInUnitCube(regions, key);
    }
  }

  /** An unlabelled vertex is grey whatever the colour map and the highlights. */
  lemma UnlabelledVertexIsGrey(vertexToRegion: map<int, RegionData>, colorMap: Option<ColorMap>,
                               selected: Option<string>, hovered: Option<string>, i: int)
    requires i !in vertexToRegion
    ensures VertexColor(vertexToRegion, colorMap, selected, hovered, i) == DefaultColor
  {
  }

  /** Highlighting touches only the vertices of the selected and hovered regions. */
  lemma HighlightIsLocal(vertexToRegion: map<int, RegionData>, colorMap: Option<ColorMap>,
                         selected: Option<string>, hovered: Option<string>, i: int)
    requires i in vertexToRegion ==> Some(vertexToRegion[i].name) != selected && Some(vertexToRegion[i].name) != hovered
    ensures VertexColor(vertexToRegion, colorMap, selected, hovered, i) == VertexColor(vertexToRegion, colorMap, None, None, i)
  {
  }

  /** Selection takes precedence over hover on the same region. */
  lemma SelectionBeatsHover(vertexToRegion: map<int, RegionData>, colorMap: Option<ColorMap>,
                            selected: Option<string>, hovered: Option<string>, i: int)
    requires i in vertexToRegion && selected == Some(vertexToRegion[i].name)
    ensures VertexColor(vertexToRegion, colorMap, selected, hovered, i) == VertexColor(vertexToRegion, colorMap, selected, None, i)
  {
  }

  /** Highlighting never darkens a vertex (given non-negative colours). */
  lemma HighlightNeverDarkens(vertexToRegion: map<int, RegionData>, colorMap: Option<ColorMap>,
                              selected: Option<string>, hovered: Option<string>, i: int)
    requires NonNegativeColors(colorMap)
    ensures var lit := VertexColor(vertexToRegion, colorMap, selected, hovered, i);
            var plain := VertexColor(vertexToRegion, colorMap, None, None, i);
            plain.r <= lit.r && plain.g <= lit.g && plain.b <= lit.b
  {
  }

  // ---------------------------------------------------------------------------------------
  // generateColorScheme

  const AnatomicalScheme: map<string, string> := map[
    "Frontal" := "#FF6B6B", "Parietal" := "#4ECDC4", "Temporal" := "#95E1D3", "Occipital" := "#9B59B6",
    "Limbic" := "#F39C12", "Subcortical" := "#D68910", "Cerebellum" := "#FCE38A"]

  const FunctionalScheme: map<string, string> := map[
    "motor" := "#E74C3C", "sensory" := "#3498DB", "visual" := "#9B59B6", "auditory" := "#F39C12",
    "association" := "#95A5A6", "limbic" := "#E67E22"]

  const HemisphereScheme: map<string, string> := map["Left" := "#FF6B6B", "Right" := "#4ECDC4"]

  /** `generateColorScheme`; an omitted argument is `"anatomical"`. */
  function GenerateColorScheme(schemeType: string): (scheme: map<string, string>)
    ensures schemeType !in {"anatomical", "functional", "hemisphere"} ==> scheme == AnatomicalScheme
  {
    if schemeType == "functional" then FunctionalScheme
    else if schemeType == "hemisphere" then HemisphereScheme
    else AnatomicalScheme
  }

  predicate IsHexColor(c: string) {
    HexDigits(c).Some?
  }

  predicate AllHexColors(scheme: map<string, string>) {
    forall k :: k in scheme ==> IsHexColor(scheme[k])
  }

  lemma AnatomicalSchemeIsHex()
    ensures AllHexColors(AnatomicalScheme)
  {
    assert IsHexColor("#FF6B6B") && IsHexColor("#4ECDC4") && IsHexColor("#95E1D3") && IsHexColor("#9B59B6");
    assert IsHexColor("#F39C12") && IsHexColor("#D68910") && IsHexColor("#FCE38A");
  }

  lemma FunctionalSchemeIsHex()
    ensures AllHexColors(FunctionalScheme)
  {
    assert IsHexColor("#E74C3C") && IsHexColor("#3498DB") && IsHexColor("#9B59B6");
    assert IsHexColor("#F39C12") && IsHexColor("#95A5A6") && IsHexColor("#E67E22");
  }

  lemma HemisphereSchemeIsHex()
    ensures AllHexColors(HemisphereScheme)
  {
    assert IsHexColor("#FF6B6B") && IsHexColor("#4ECDC4");
  }

  /** Every colour of every scheme is one `hexToRGB` accepts. */
  lemma SchemeColorsAreHex(schemeType: string)
    ensures AllHexColors(GenerateColorScheme(schemeType))
  {
    if schemeType == "functional" {
      FunctionalSchemeIsHex();
    } else if schemeType == "hemisphere" {
      HemisphereSchemeIsHex();
    } else {
      AnatomicalSchemeIsHex();
    }
  }

  /** The anatomical scheme has a colour for exactly the lobes `getAllLobes` lists for the AAL
      table, and the hemisphere scheme for exactly the hemispheres `getAllHemispheres` lists,
      whatever the table's free text. */
  lemma SchemesCoverAalTable(texts: seq<BR.AalText>)
    ensures var table := BR.Assemble(BR.AalKeys, BR.AalIdentities, texts);
      forall l :: l in BR.GetAllLobes(table) <==> l in AnatomicalScheme
    ensures var table := BR.Assemble(BR.AalKeys, BR.AalIdentities, texts);
      forall h :: h in BR.GetAllHemispheres(table) <==> h in HemisphereScheme
  {
    BR.AalLobesListed(texts);
    BR.AalHemispheresListed(texts);
    assert AnatomicalScheme.Keys == {"Frontal", "Parietal", "Temporal", "Occipital", "Limbic", "Subcortical", "Cerebellum"};
    assert HemisphereScheme.Keys == {"Left", "Right"};
  }

  /** No scheme is empty. */
  lemma SchemeIsNonEmpty(schemeType: string)
    ensures |GenerateColorScheme(schemeType)| > 0
  {
    if schemeType == "functional" {
      assert "motor" in FunctionalScheme;
    } else if schemeType == "hemisphere" {
      assert "Left" in HemisphereScheme;
    } else {
      assert "Frontal" in AnatomicalScheme;
    }
  }
}
