/** The stage loader on a printed stage map, and its agreement with the gateway's loader. */
module StageMapAgreement {
  import opened Basics
  import opened Decimal
  import opened TextLines
  import opened ConfigText
  import opened PartitionGraph
  import opened StageMapLoaders
  import opened StageMap
  import opened StageMapEntries
  import opened StageMapRoundTrip

  lemma StageOne(s: StageState, w: int, line: string, rest: seq<string>, next: StageState)
    requires StageLine(s, w, line) == Ok(next)
    ensures StageLines(s, w, [line] + rest) == StageLines(next, w, rest)
  {
    hide StageLine;
    assert ([line] + rest)[1..] == rest;
  }

  lemma SkipBlank(s: StageState, w: int, rest: seq<string>)
    ensures StageLines(s, w, [""] + rest) == StageLines(s, w, rest)
  {
    StageOne(s, w, "", rest, s);
  }

  lemma SkipField(s: StageState, w: int, indent: nat, k: Key, text: string, rest: seq<string>)
    requires !s.inStages && k != InferenceStages
    ensures StageLines(s, w, [Field(indent, k, text)] + rest) == StageLines(s, w, rest)
  {
    hide Trim, Indent, IsField, IsComment, AfterColon, Scalar, Field, StageLines;
    FieldIsSeen(indent, k, text);
    StageOne(s, w, Field(indent, k, text), rest, s);
  }

  lemma EnterStages(s: StageState, w: int)
    requires !s.inStages && !s.done
    ensures StageLines(s, w, [Field(0, InferenceStages, "")]) == Ok(s.(inStages := true))
  {
    hide Trim, Indent, IsField, IsComment, AfterColon, Scalar, Field;
    FieldIsSeen(0, InferenceStages, "");
    var line := Field(0, InferenceStages, "");
    assert [line] + [] == [line];
    StageOne(s, w, line, [], s.(inStages := true));
  }

  lemma SkipHeader(a: MapArgs, w: int)
    ensures StageLines(StageStart(w), w, HeaderLines(a)) == Ok(StageStart(w).(inStages := true))
  {
    SkipGatewayHeader(a, w);
    hide StageLines, Field, UrlOf, ToString, ModelDir, GatewayHeader;
    var s := StageStart(w);
    var l4 := [""] + GatewayHeader(a);
    var l3 := [Field(0, NumLayers, " " + ToString(a.numLayers))] + l4;
    var l2 := [Field(0, ModelPath, " " + (ModelDir(a) + a.ggufFile))] + l3;
    var l1 := [Field(0, ModelSlug, " " + a.modelSlug)] + l2;
    SkipField(s, w, 0, ModelName, " " + a.modelName, l1);
    SkipField(s, w, 0, ModelSlug, " " + a.modelSlug, l2);
    SkipField(s, w, 0, ModelPath, " " + (ModelDir(a) + a.ggufFile), l3);
    SkipField(s, w, 0, NumLayers, " " + ToString(a.numLayers), l4);
    SkipBlank(s, w, GatewayHeader(a));
  }

  lemma SkipGatewayHeader(a: MapArgs, w: int)
    ensures StageLines(StageStart(w), w, GatewayHeader(a)) == Ok(StageStart(w).(inStages := true))
  {
    hide StageLines, Field, UrlOf, ToString;
    var s := StageStart(w);
    var l5 := [Field(0, InferenceStages, "")];
    var l4 := [""] + l5;
    var l3 := [Field(2, FirstStageUrl, " " + UrlOf(a, 1))] + l4;
    var l2 := [Field(2, Port, " " + ToString(8000))] + l3;
    var l1 := [Field(2, ServiceName, " " + a.gatewayService)] + l2;
    SkipField(s, w, 0, InferenceGateway, "", l1);
    SkipField(s, w, 2, ServiceName, " " + a.gatewayService, l2);
    SkipField(s, w, 2, Port, " " + ToString(8000), l3);
    SkipField(s, w, 2, FirstStageUrl, " " + UrlOf(a, 1), l4);
    SkipBlank(s, w, l5);
    EnterStages(s, w);
  }

  /** The stage loader's state after the entries of the first count stages. */
  function StageAfter(a: MapArgs, w: int, count: nat): StageState
    requires Counts(a) && count <= a.numStages
  {
    StageState(true, count > 0 && count == w, false,
      Entry(false, false, if 1 <= w <= count then Reading(a, w, "") else NO_PARTITION.(stageId := w)))
  }

  lemma StageIdLine(s: StageState, w: int, id: nat, rest: seq<string>)
    requires s.inStages && !s.done && 1 <= id <= INT_MAX
    ensures StageLines(s, w, [Field(0, StageId, " " + ToString(id))] + rest)
         == StageLines(s.(inTarget := id == w, entry := Entry(false, false,
              if id == w then s.entry.node.(components := s.entry.node.components.(layers := []))
              else s.entry.node)), w, rest)
  {
    hide Trim, Indent, IsField, IsComment, AfterColon, Scalar, Field, StageLines, ToString, Stoi;
    FieldIsSeen(0, StageId, " " + ToString(id));
    NumberIsRead(id);
    StageOne(s, w, Field(0, StageId, " " + ToString(id)), rest,
      s.(inTarget := id == w, entry := Entry(false, false,
         if id == w then s.entry.node.(components := s.entry.node.components.(layers := []))
         else s.entry.node)));
  }

  lemma StageReadsBlock(a: MapArgs, w: int, id: nat)
    requires ValidArgs(a) && 1 <= id <= a.numStages
    ensures StageLines(StageAfter(a, w, id - 1), w, StageBlock(a, id)) == Ok(StageAfter(a, w, id))
  {
    hide StageLines, EntryLines, Field, EntryText, Inside, Reading, ToString;
    var before := StageAfter(a, w, id - 1);
    StageIdLine(before, w, id, EntryText(a, id));
    var s := before.(inTarget := id == w, entry := Entry(false, false, before.entry.node));
    EntryInside(a, id);
    StageReadsEntry(s, w, EntryText(a, id));
    if id == w { ReadEntry(a, id, false, s.entry); }
  }

  lemma StageChain(s: StageState, w: int, x: seq<string>, y: seq<string>, m: StageState, r: StageState)
    requires StageLines(s, w, x) == Ok(m) && StageLines(m, w, y) == Ok(r)
    ensures StageLines(s, w, x + y) == Ok(r)
  {
    StageLinesAppend(s, w, x, y);
  }

  lemma NothingForStage(s: StageState, w: int)
    ensures StageLines(s, w, []) == Ok(s)
  {}

  lemma {:induction false} StageReadsBlocks(a: MapArgs, w: int, count: nat)
    requires ValidArgs(a) && count <= a.numStages
    ensures StageLines(StageAfter(a, w, 0), w, StageBlocks(a, count)) == Ok(StageAfter(a, w, count))
    decreases count
  {
    hide *;
    ValidArgsCount(a);
    MoreBlocks(a, count);
    if count == 0 {
      NothingForStage(StageAfter(a, w, 0), w);
    } else {
      StageReadsBlocks(a, w, count - 1);
      StageReadsBlock(a, w, count);
      StageChain(StageAfter(a, w, 0), w, StageBlocks(a, count - 1), StageBlock(a, count),
                 StageAfter(a, w, count - 1), StageAfter(a, w, count));
    }
  }

  lemma StageStops(s: StageState, w: int, rest: seq<string>)
    requires s.inStages && !s.done
    ensures StageLines(s, w, [Field(0, Topology, "")] + rest) == Ok(s.(done := true))
  {
    hide Trim, Indent, IsField, IsComment, AfterColon, Scalar, Field, StageLines;
    FieldIsSeen(0, Topology, "");
    StageOne(s, w, Field(0, Topology, ""), rest, s.(done := true));
    DoneStaysDone(s.(done := true), w, rest);
  }

  lemma StageReadsMap(a: MapArgs, w: int)
    requires ValidArgs(a)
    ensures StageLines(StageStart(w), w, MapLines(a)) == Ok(StageAfter(a, w, a.numStages).(done := true))
  {
    hide *;
    ValidArgsCount(a);
    MapParts(a);
    AfterIsOpen(a, w);
    SkipHeader(a, w);
    StageReadsBlocks(a, w, a.numStages);
    StageStops(StageAfter(a, w, a.numStages), w, TailLines(a));
    StageChain(StageStart(w), w, HeaderLines(a), StageBlocks(a, a.numStages),
               StageAfter(a, w, 0), StageAfter(a, w, a.numStages));
    StageChain(StageStart(w), w, HeaderLines(a) + StageBlocks(a, a.numStages), [Field(0, Topology, "")] + TailLines(a),
               StageAfter(a, w, a.numStages), StageAfter(a, w, a.numStages).(done := true));
  }

  lemma AfterIsOpen(a: MapArgs, w: int)
    requires Counts(a)
    ensures StageAfter(a, w, 0) == StageStart(w).(inStages := true)
    ensures StageAfter(a, w, a.numStages).inStages && !StageAfter(a, w, a.numStages).done
  {}

  /** A stage finds its entry in a printed map exactly when its id is one of 1 .. numStages,
      and reads back what was printed for it. */
  lemma StageRoundTrip(a: MapArgs, w: int)
    requires ValidArgs(a)
    ensures LoadStage(Render(MapLines(a)), w)
         == if 1 <= w <= a.numStages then Ok(Reading(a, w, "")) else Err(NoServiceName)
  {
    MapOneLine(a);
    LinesOfRender(MapLines(a));
    StageReadsMap(a, w);
    hide MapLines, StageLines;
    if 1 <= w <= a.numStages { ServiceIsNamed(a, w); }
    hide Scalar, ServiceOf;
  }

  /** On every printed map the two loaders agree on every stage: service name, node, files,
      backend, next URL and components. */
  lemma LoadersAgree(a: MapArgs, id: int)
    requires ValidArgs(a) && 1 <= id <= a.numStages
    ensures LoadGateway(Render(MapLines(a))).Ok?
    ensures var ps := LoadGateway(Render(MapLines(a))).value.partitions;
            && |ps| == a.numStages
            && ps[id - 1].stageId == id
            && LoadStage(Render(MapLines(a)), id) == Ok(ps[id - 1].(partitionId := ""))
  {
    hide LoadGateway, LoadStage, MapLines, Scalar, UrlOf, ModelDir, ServiceOf, DefaultPartitionId;
    GatewayRoundTrip(a);
    StageRoundTrip(a, id);
    ExpectedRoles(a, id - 1);
  }

  /** The printed entry, literally. */
  function Printed(a: MapArgs, id: nat, partitionId: string): Partition
    requires Counts(a) && 1 <= id <= a.numStages
  {
    Partition(id, partitionId, ServiceOf(a, id), a.physicalNodes[id - 1], PtFile(a, id), GgufFile(a, id),
              "llama", NextUrl(a, id), ReadComponentsOf(a, id))
  }

  predicate StartsClean(s: string) { s == "" || !IsBlank(s[0]) }

  lemma EndsInText(s: string)
    requires |s| > 1 && s[|s| - 1] != '"' && s[|s| - 1] != '\'' && s[|s| - 1] != 'l'
    requires !IsBlank(s[|s| - 1]) && s[|s| - 1] != '\r'
    ensures Scalar(s) == s <==> StartsClean(s)
  {
    PlainScalar(s);
  }

  lemma {:induction false} StripKeepsStart(s: string)
    ensures StartsClean(StripTrailingSlashes(s)) <==> StartsClean(s)
    ensures s == "" <==> StripTrailingSlashes(s) == ""
  {
    if |s| > 1 && s[|s| - 1] == '/' { StripKeepsStart(s[..|s| - 1]); }
  }

  /** The loaders give back the printed names unchanged exactly when the service prefix and
      the model root do not start with a blank and the node's name is a plain scalar. */
  lemma NamesAreKept(a: MapArgs, id: nat, partitionId: string)
    requires Counts(a) && 1 <= id <= a.numStages
    ensures Reading(a, id, partitionId) == Printed(a, id, partitionId)
       <==> StartsClean(a.stagePrefix) && Plain(a.physicalNodes[id - 1]) && StartsClean(a.containerRoot)
  {
    hide Scalar, NextUrl, ReadComponentsOf, Plain, StripTrailingSlashes;
    PlainScalar(a.physicalNodes[id - 1]);
    PrefixKept(a, id);
    FilesKept(a, id);
  }

  lemma PrefixKept(a: MapArgs, id: nat)
    ensures Scalar(ServiceOf(a, id)) == ServiceOf(a, id) <==> StartsClean(a.stagePrefix)
  {
    hide Scalar, ToString;
    var s, d := ServiceOf(a, id), ToString(id);
    PrintedNumber(id);
    assert s[|s| - 1] == d[|d| - 1];
    EndsInText(s);
  }

  lemma FilesKept(a: MapArgs, id: nat)
    ensures Scalar(PtFile(a, id)) == PtFile(a, id) <==> StartsClean(a.containerRoot)
    ensures Scalar(GgufFile(a, id)) == GgufFile(a, id) <==> StartsClean(a.containerRoot)
  {
    hide Scalar, ToString, StripTrailingSlashes;
    StripKeepsStart(a.containerRoot);
    var root := StripTrailingSlashes(a.containerRoot);
    var p, g := PtFile(a, id), GgufFile(a, id);
    assert p[0] == (if root == "" then '/' else root[0]) && p[|p| - 1] == 't';
    assert g[0] == (if root == "" then '/' else root[0]) && g[|g| - 1] == 'f';
    EndsInText(p);
    EndsInText(g);
  }
}
