/** What the two loaders read back from a printed stage map, as a whole. */
module StageMapRoundTrip {
  import opened Basics
  import opened Decimal
  import opened TextLines
  import opened ConfigText
  import opened PartitionGraph
  import opened StageMapLoaders
  import opened StageMap
  import opened StageMapEntries

  function Expected(a: MapArgs, count: nat): seq<Partition>
    requires Counts(a) && count <= a.numStages
  {
    seq(count, i requires 0 <= i < count => Reading(a, i + 1, DefaultPartitionId(i + 1)))
  }

  function ExpectedConfig(a: MapArgs, count: nat): GatewayConfig
    requires Counts(a) && count <= a.numStages
  {
    GatewayConfig(Scalar(a.gatewayService), Scalar(a.modelName), Scalar(ModelDir(a) + a.ggufFile),
                  UrlOf(a, 1), 8000, a.numLayers, Expected(a, count))
  }

  lemma GatewayOne(s: GatewayState, line: string, rest: seq<string>, next: GatewayState)
    requires GatewayLine(s, line) == Ok(next)
    ensures GatewayLines(s, [line] + rest) == GatewayLines(next, rest)
  {
    hide GatewayLine;
    assert ([line] + rest)[1..] == rest;
  }

  /** The four keys of the model. */
  lemma ModelKeys(s: GatewayState, k: Key, text: string, rest: seq<string>)
    requires !s.inStages && !s.inGateway
    requires k in {ModelName, ModelSlug, ModelPath}
    ensures GatewayLines(s, [Field(0, k, text)] + rest) == GatewayLines(
      s.(config := match k case ModelName => s.config.(modelName := Scalar(text))
                           case ModelPath => s.config.(modelPath := Scalar(text))
                           case _ => s.config), rest)
  {
    hide Trim, Indent, IsField, IsComment, AfterColon, Scalar, Field, GatewayLines;
    FieldIsSeen(0, k, text);
    GatewayOne(s, Field(0, k, text), rest,
      s.(config := match k case ModelName => s.config.(modelName := Scalar(text))
                           case ModelPath => s.config.(modelPath := Scalar(text))
                           case _ => s.config));
  }

  lemma NumberIsRead(n: nat)
    requires n <= INT_MAX
    ensures Stoi(Scalar(" " + ToString(n))) == Some(n)
    ensures Scalar(" " + ToString(n)) != ""
  {
    hide Scalar, ToString, Stoi;
    var d := ToString(n);
    PrintedNumber(n);
    StoiToString(n);
    ScalarAfterBlank(d);
    assert d[0] != 'n' && d != "null";
    PlainScalar(d);
  }

  lemma LayerCountKey(s: GatewayState, n: nat, rest: seq<string>)
    requires n <= INT_MAX
    ensures GatewayLines(s, [Field(0, NumLayers, " " + ToString(n))] + rest)
         == GatewayLines(s.(config := s.config.(numLayers := n)), rest)
  {
    hide Trim, Indent, IsField, IsComment, AfterColon, Scalar, Field, GatewayLines, ToString, Stoi;
    FieldIsSeen(0, NumLayers, " " + ToString(n));
    NumberIsRead(n);
    GatewayOne(s, Field(0, NumLayers, " " + ToString(n)), rest, s.(config := s.config.(numLayers := n)));
  }

  lemma BlankLine(s: GatewayState, rest: seq<string>)
    ensures GatewayLines(s, [""] + rest) == GatewayLines(s, rest)
  {
    GatewayOne(s, "", rest, s);
  }

  lemma GatewaySection(s: GatewayState, rest: seq<string>)
    ensures GatewayLines(s, [Field(0, InferenceGateway, "")] + rest)
         == GatewayLines(LeaveSections(s).(inGateway := true, inStages := false, inPartition := false, gatewayIndent := 0), rest)
  {
    hide Trim, Indent, IsField, IsComment, AfterColon, Scalar, Field, GatewayLines;
    FieldIsSeen(0, InferenceGateway, "");
    GatewayOne(s, Field(0, InferenceGateway, ""), rest,
      LeaveSections(s).(inGateway := true, inStages := false, inPartition := false, gatewayIndent := 0));
  }

  lemma GatewayKeys(s: GatewayState, k: Key, text: string, rest: seq<string>)
    requires s.inGateway && s.gatewayIndent == 0
    requires k in {ServiceName, FirstStageUrl}
    ensures GatewayLines(s, [Field(2, k, text)] + rest) == GatewayLines(
      s.(config := if k == ServiceName then s.config.(serviceName := Scalar(text))
                   else s.config.(firstStageUrl := Scalar(text))), rest)
  {
    hide Trim, Indent, IsField, IsComment, AfterColon, Scalar, Field, GatewayLines;
    FieldIsSeen(2, k, text);
    GatewayOne(s, Field(2, k, text), rest,
      s.(config := if k == ServiceName then s.config.(serviceName := Scalar(text))
                   else s.config.(firstStageUrl := Scalar(text))));
  }

  lemma PortKey(s: GatewayState, n: nat, rest: seq<string>)
    requires s.inGateway && s.gatewayIndent == 0 && n <= INT_MAX
    ensures GatewayLines(s, [Field(2, Port, " " + ToString(n))] + rest)
         == GatewayLines(s.(config := s.config.(port := n)), rest)
  {
    hide Trim, Indent, IsField, IsComment, AfterColon, Scalar, Field, GatewayLines, ToString, Stoi;
    FieldIsSeen(2, Port, " " + ToString(n));
    NumberIsRead(n);
    GatewayOne(s, Field(2, Port, " " + ToString(n)), rest, s.(config := s.config.(port := n)));
  }

  lemma StagesSection(s: GatewayState)
    requires !s.inPartition
    ensures GatewayLines(s, [Field(0, InferenceStages, "")])
         == Ok(LeaveSections(s).(inGateway := false, inStages := true))
  {
    hide Trim, Indent, IsField, IsComment, AfterColon, Scalar, Field;
    FieldIsSeen(0, InferenceStages, "");
    var line := Field(0, InferenceStages, "");
    assert [line] + [] == [line];
    GatewayOne(s, line, [], LeaveSections(s).(inGateway := false, inStages := true));
  }

  /** The gateway's state when it reaches the list of stages. */
  function AtStages(a: MapArgs): GatewayState
    requires Counts(a)
  {
    GatewayState(ExpectedConfig(a, 0), false, true, false, 0, Entry(false, false, NO_PARTITION))
  }

  lemma ReadGatewayHeader(a: MapArgs, c: GatewayConfig)
    requires Counts(a) && c.port == 8000
    ensures GatewayLines(GATEWAY_START.(config := c), GatewayHeader(a))
         == Ok(AtStages(a).(config := c.(serviceName := Scalar(a.gatewayService), firstStageUrl := UrlOf(a, 1))))
  {
    hide GatewayLines, Field, Scalar, UrlOf, ToString;
    var s := GATEWAY_START.(config := c);
    var l5 := [Field(0, InferenceStages, "")];
    var l4 := [""] + l5;
    var l3 := [Field(2, FirstStageUrl, " " + UrlOf(a, 1))] + l4;
    var l2 := [Field(2, Port, " " + ToString(8000))] + l3;
    var l1 := [Field(2, ServiceName, " " + a.gatewayService)] + l2;
    GatewaySection(s, l1);
    s := s.(inGateway := true, gatewayIndent := 0);
    GatewayKeys(s, ServiceName, " " + a.gatewayService, l2);
    ScalarAfterBlank(a.gatewayService);
    s := s.(config := c.(serviceName := Scalar(a.gatewayService)));
    PortKey(s, 8000, l3);
    GatewayKeys(s, FirstStageUrl, " " + UrlOf(a, 1), l4);
    UrlIsPlain(a, 1);
    s := s.(config := s.config.(firstStageUrl := UrlOf(a, 1)));
    BlankLine(s, l5);
    StagesSection(s);
  }

  lemma ReadHeader(a: MapArgs)
    requires ValidArgs(a)
    ensures GatewayLines(GATEWAY_START, HeaderLines(a)) == Ok(AtStages(a))
  {
    hide GatewayLines, Field, Scalar, UrlOf, ToString, ModelDir;
    var s := GATEWAY_START;
    var l5 := GatewayHeader(a);
    var l4 := [""] + l5;
    var l3 := [Field(0, NumLayers, " " + ToString(a.numLayers))] + l4;
    var l2 := [Field(0, ModelPath, " " + (ModelDir(a) + a.ggufFile))] + l3;
    var l1 := [Field(0, ModelSlug, " " + a.modelSlug)] + l2;
    ModelKeys(s, ModelName, " " + a.modelName, l1);
    ScalarAfterBlank(a.modelName);
    s := s.(config := s.config.(modelName := Scalar(a.modelName)));
    ModelKeys(s, ModelSlug, " " + a.modelSlug, l2);
    ModelKeys(s, ModelPath, " " + (ModelDir(a) + a.ggufFile), l3);
    ScalarAfterBlank(ModelDir(a) + a.ggufFile);
    s := s.(config := s.config.(modelPath := Scalar(ModelDir(a) + a.ggufFile)));
    LayerCountKey(s, a.numLayers, l4);
    s := s.(config := s.config.(numLayers := a.numLayers));
    BlankLine(s, l5);
    ReadGatewayHeader(a, s.config);
    assert Expected(a, 0) == [];
  }

  lemma {:induction false} TrimLeftKeepsEnd(s: string)
    requires s != "" && !IsBlank(s[|s| - 1])
    ensures TrimLeft(s) != "" && TrimLeft(s)[|TrimLeft(s)| - 1] == s[|s| - 1]
  {
    if IsBlank(s[0]) { TrimLeftKeepsEnd(s[1..]); }
  }

  lemma ServiceIsNamed(a: MapArgs, id: nat)
    ensures Scalar(ServiceOf(a, id)) != ""
  {
    hide TrimLeft, ToString;
    var s := ServiceOf(a, id);
    PrintedNumber(id);
    var d := ToString(id);
    assert s[|s| - 1] == d[|d| - 1];
    TrimLeftKeepsEnd(s);
  }

  /** The gateway's state after the entries of the first count stages: the last one is still
      open. */
  function After(a: MapArgs, count: nat): GatewayState
    requires Counts(a) && count <= a.numStages
  {
    if count == 0 then AtStages(a)
    else AtStages(a).(
      config := ExpectedConfig(a, count - 1), inPartition := true,
      entry := Entry(false, false, Reading(a, count, DefaultPartitionId(count))))
  }

  lemma ReadingIsComplete(a: MapArgs, id: nat)
    requires Counts(a) && 1 <= id <= a.numStages
    ensures var r := Reading(a, id, DefaultPartitionId(id));
            r.stageId == id && r.partitionId != "" && r.serviceName != ""
  {
    ServiceIsNamed(a, id);
    PartitionIdIsPlain(id);
  }

  lemma OneMoreExpected(a: MapArgs, count: nat)
    requires Counts(a) && 1 <= count <= a.numStages
    ensures Expected(a, count) == Expected(a, count - 1) + [Reading(a, count, DefaultPartitionId(count))]
  {
    hide Reading, DefaultPartitionId;
  }

  lemma FinishAfter(a: MapArgs, count: nat)
    requires Counts(a) && count <= a.numStages
    ensures Finish(After(a, count)) == Ok(AtStages(a).(config := ExpectedConfig(a, count)))
  {
    if count > 0 {
      hide Reading, DefaultPartitionId, Expected, UrlOf, ModelDir, Scalar;
      ReadingIsComplete(a, count);
      OneMoreExpected(a, count);
    }
  }

  lemma OpenEntry(s: GatewayState, id: nat, rest: seq<string>)
    requires s.inStages && !s.inGateway && Finish(s).Ok?
    requires 1 <= id <= INT_MAX
    ensures GatewayLines(s, [Field(0, StageId, " " + ToString(id))] + rest)
         == GatewayLines(Finish(s).value.(inPartition := true,
              entry := Entry(false, false, NO_PARTITION.(stageId := id, partitionId := DefaultPartitionId(id)))), rest)
  {
    hide Trim, Indent, IsField, IsComment, AfterColon, Scalar, Field, GatewayLines, ToString, Stoi, Finish, DefaultPartitionId;
    FieldIsSeen(0, StageId, " " + ToString(id));
    NumberIsRead(id);
    GatewayOne(s, Field(0, StageId, " " + ToString(id)), rest,
      Finish(s).value.(inPartition := true,
        entry := Entry(false, false, NO_PARTITION.(stageId := id, partitionId := DefaultPartitionId(id)))));
  }

  lemma ReadBlock(a: MapArgs, id: nat)
    requires ValidArgs(a) && 1 <= id <= a.numStages
    ensures GatewayLines(After(a, id - 1), StageBlock(a, id)) == Ok(After(a, id))
  {
    hide GatewayLines, EntryLines, Field, EntryText, Inside, DefaultPartitionId, Reading, Finish, Expected;
    FinishAfter(a, id - 1);
    OpenEntry(After(a, id - 1), id, EntryText(a, id));
    var s := Finish(After(a, id - 1)).value.(inPartition := true,
      entry := Entry(false, false, NO_PARTITION.(stageId := id, partitionId := DefaultPartitionId(id))));
    EntryInside(a, id);
    GatewayReadsEntry(s, EntryText(a, id));
    ReadEntry(a, id, true, s.entry);
  }

  lemma GatewayChain(s: GatewayState, x: seq<string>, y: seq<string>, m: GatewayState, r: GatewayState)
    requires GatewayLines(s, x) == Ok(m) && GatewayLines(m, y) == Ok(r)
    ensures GatewayLines(s, x + y) == Ok(r)
  {
    GatewayLinesAppend(s, x, y);
  }

  lemma MoreBlocks(a: MapArgs, count: nat)
    requires Counts(a) && count <= a.numStages
    ensures StageBlocks(a, count) == if count == 0 then [] else StageBlocks(a, count - 1) + StageBlock(a, count)
  {
    hide StageBlock;
  }

  lemma NothingToRead(a: MapArgs)
    requires Counts(a)
    ensures GatewayLines(AtStages(a), []) == Ok(After(a, 0))
  {}

  lemma {:induction false} ReadBlocks(a: MapArgs, count: nat)
    requires ValidArgs(a) && count <= a.numStages
    ensures GatewayLines(AtStages(a), StageBlocks(a, count)) == Ok(After(a, count))
    decreases count
  {
    hide *;
    ValidArgsCount(a);
    MoreBlocks(a, count);
    if count == 0 {
      NothingToRead(a);
    } else {
      ReadBlocks(a, count - 1);
      ReadBlock(a, count);
      GatewayChain(AtStages(a), StageBlocks(a, count - 1), StageBlock(a, count), After(a, count - 1), After(a, count));
    }
  }

  lemma ValidArgsCount(a: MapArgs)
    requires ValidArgs(a)
    ensures Counts(a)
  {}

  /** The lines after the list of stages. */
  ghost predicate Indented(lines: seq<string>) {
    forall i :: 0 <= i < |lines| ==> lines[i] != "" && lines[i][0] == ' '
  }

  lemma {:induction false} RoutesIndented(a: MapArgs, count: nat)
    ensures Indented(RouteLines(a, count))
  {
    if count > 0 { RoutesIndented(a, count - 1); }
  }

  lemma {:induction false} IndentedIgnored(s: GatewayState, lines: seq<string>)
    requires !s.inStages && !s.inGateway && Indented(lines)
    ensures GatewayLines(s, lines) == Ok(s)
    decreases |lines|
  {
    if lines == [] {
    } else {
      hide Trim, IsField, IsComment;
      assert Indent(lines[0]) > 0;
      assert GatewayLine(s, lines[0]) == Ok(s);
      IndentedIgnored(s, lines[1..]);
    }
  }

  lemma TopologyLine(s: GatewayState, rest: seq<string>)
    requires s.inStages && Finish(s).Ok?
    ensures GatewayLines(s, [Field(0, Topology, "")] + rest)
         == GatewayLines(LeaveSections(Finish(s).value).(inStages := false), rest)
  {
    hide Trim, Indent, IsField, IsComment, AfterColon, Scalar, Field, GatewayLines, Finish;
    FieldIsSeen(0, Topology, "");
    GatewayOne(s, Field(0, Topology, ""), rest, LeaveSections(Finish(s).value).(inStages := false));
  }

  lemma ReadTail(a: MapArgs, rest: seq<string>)
    requires ValidArgs(a) && Indented(rest)
    ensures GatewayLines(After(a, a.numStages), [Field(0, Topology, "")] + rest)
         == Ok(AtStages(a).(config := ExpectedConfig(a, a.numStages), inStages := false))
  {
    hide Field, GatewayLines, Finish, Reading, Expected, Indented, UrlOf, ModelDir;
    FinishAfter(a, a.numStages);
    TopologyLine(After(a, a.numStages), rest);
    IndentedIgnored(AtStages(a).(config := ExpectedConfig(a, a.numStages), inStages := false), rest);
  }

  lemma ReadMapLines(a: MapArgs)
    requires ValidArgs(a)
    ensures GatewayLines(GATEWAY_START, MapLines(a))
         == Ok(AtStages(a).(config := ExpectedConfig(a, a.numStages), inStages := false))
  {
    hide *;
    ValidArgsCount(a);
    MapParts(a);
    TailIndented(a);
    ReadHeader(a);
    ReadBlocks(a, a.numStages);
    ReadTail(a, TailLines(a));
    GatewayChain(GATEWAY_START, HeaderLines(a), StageBlocks(a, a.numStages), AtStages(a), After(a, a.numStages));
    GatewayChain(GATEWAY_START, HeaderLines(a) + StageBlocks(a, a.numStages), [Field(0, Topology, "")] + TailLines(a),
      After(a, a.numStages), AtStages(a).(config := ExpectedConfig(a, a.numStages), inStages := false));
  }

  lemma TailIndented(a: MapArgs)
    requires Counts(a)
    ensures Indented(TailLines(a))
  {
    RoutesIndented(a, a.numStages - 1);
    TopologyOneLine();
    hide TOPOLOGY_HEAD, RouteLines;
  }

  ghost predicate AllOneLine(lines: seq<string>) {
    forall i :: 0 <= i < |lines| ==> OneLine(lines[i])
  }

  lemma {:induction false} SpacesOneLine(n: nat)
    ensures OneLine(Spaces(n))
  {
    if n > 0 { SpacesOneLine(n - 1); }
  }

  lemma FieldOneLine(indent: nat, k: Key, text: string)
    requires OneLine(text)
    ensures OneLine(Field(indent, k, text))
  {
    hide Name, Spaces;
    SpacesOneLine(indent);
    NameIsWord(k);
  }

  lemma FieldThenLines(indent: nat, k: Key, text: string, rest: seq<string>)
    requires OneLine(text) && AllOneLine(rest)
    ensures AllOneLine([Field(indent, k, text)] + rest)
  {
    FieldOneLine(indent, k, text);
  }

  lemma NumberOneLine(n: nat)
    ensures OneLine(ToString(n))
  {
    PrintedNumber(n);
  }

  lemma {:induction false} StripOneLine(s: string)
    requires OneLine(s)
    ensures OneLine(StripTrailingSlashes(s))
  {
    if |s| > 1 && s[|s| - 1] == '/' { StripOneLine(s[..|s| - 1]); }
  }

  lemma {:induction false} ItemsOneLine(layers: seq<int>)
    requires forall i :: 0 <= i < |layers| ==> layers[i] >= 0
    ensures AllOneLine(Items(4, layers))
  {
    if layers == [] {
    } else {
      hide ToString, Spaces;
      SpacesOneLine(4);
      NumberOneLine(layers[0]);
      ItemsOneLine(layers[1..]);
    }
  }

  lemma TextsOneLine(a: MapArgs, id: nat)
    requires ValidArgs(a)
    ensures OneLine(ServiceOf(a, id)) && OneLine(UrlOf(a, id)) && OneLine(DefaultPartitionId(id))
    ensures OneLine(PtFile(a, id)) && OneLine(GgufFile(a, id)) && OneLine(ModelDir(a) + a.ggufFile)
  {
    hide ToString, StripTrailingSlashes;
    NumberOneLine(id);
    StripOneLine(a.containerRoot);
  }

  lemma HeaderOneLine(a: MapArgs)
    requires ValidArgs(a)
    ensures AllOneLine(HeaderLines(a))
  {
    assert AllOneLine([Field(0, InferenceStages, "")]) by { FieldOneLine(0, InferenceStages, ""); }
    hide Field, UrlOf, ModelDir, ToString, AllOneLine;
    TextsOneLine(a, 1);
    NumberOneLine(8000);
    NumberOneLine(a.numLayers);
    var l4 := [Field(0, InferenceStages, "")];
    BlankThenLines(l4);
    var l3 := [""] + l4;
    FieldThenLines(2, FirstStageUrl, " " + UrlOf(a, 1), l3);
    var l2 := [Field(2, FirstStageUrl, " " + UrlOf(a, 1))] + l3;
    FieldThenLines(2, Port, " " + ToString(8000), l2);
    var l1 := [Field(2, Port, " " + ToString(8000))] + l2;
    FieldThenLines(2, ServiceName, " " + a.gatewayService, l1);
    FieldThenLines(0, InferenceGateway, "", [Field(2, ServiceName, " " + a.gatewayService)] + l1);
    BlankThenLines(GatewayHeader(a));
    var k3 := [""] + GatewayHeader(a);
    FieldThenLines(0, NumLayers, " " + ToString(a.numLayers), k3);
    var k2 := [Field(0, NumLayers, " " + ToString(a.numLayers))] + k3;
    FieldThenLines(0, ModelPath, " " + (ModelDir(a) + a.ggufFile), k2);
    var k1 := [Field(0, ModelPath, " " + (ModelDir(a) + a.ggufFile))] + k2;
    FieldThenLines(0, ModelSlug, " " + a.modelSlug, k1);
    FieldThenLines(0, ModelName, " " + a.modelName, [Field(0, ModelSlug, " " + a.modelSlug)] + k1);
  }

  lemma BlankThenLines(rest: seq<string>)
    requires AllOneLine(rest)
    ensures AllOneLine([""] + rest)
  {}

  lemma AppendOneLine(x: seq<string>, y: seq<string>)
    requires AllOneLine(x) && AllOneLine(y)
    ensures AllOneLine(x + y)
  {}

  lemma ClosingOneLine(a: MapArgs, id: nat)
    requires ValidArgs(a)
    ensures AllOneLine(ClosingText(a, id))
  {
    assert AllOneLine([""]);
    hide Field, UrlOf, AllOneLine;
    TextsOneLine(a, id + 1);
    var last := id == a.numStages;
    var next := " " + if id < a.numStages then UrlOf(a, id + 1) else "null";
    FieldThenLines(2, NextStageUrl, next, [""]);
    FieldThenLines(4, LmHead, Bool(last), [Field(2, NextStageUrl, next)] + [""]);
    FieldThenLines(4, Norm, Bool(last), [Field(4, LmHead, Bool(last))] + ([Field(2, NextStageUrl, next)] + [""]));
  }

  lemma ComponentsOneLine(a: MapArgs, id: nat)
    requires ValidArgs(a) && 1 <= id <= a.numStages
    ensures AllOneLine(ComponentText(a, id))
  {
    hide Field, AllOneLine, Items, Share, ClosingText;
    var layers := Share(a.numLayers, a.numStages, id - 1);
    ShareInRange(a, id - 1);
    ItemsOneLine(layers);
    ClosingOneLine(a, id);
    AppendOneLine(Items(4, layers), ClosingText(a, id));
    var l2 := Items(4, layers) + ClosingText(a, id);
    FieldThenLines(4, Layers, "", l2);
    FieldThenLines(4, Embedding, Bool(id == 1), [Field(4, Layers, "")] + l2);
    FieldThenLines(2, ComponentsOf, "", [Field(4, Embedding, Bool(id == 1))] + ([Field(4, Layers, "")] + l2));
  }

  lemma BlockOneLine(a: MapArgs, id: nat)
    requires ValidArgs(a) && 1 <= id <= a.numStages
    ensures AllOneLine(StageBlock(a, id))
  {
    TextsOneLine(a, id);
    NumberOneLine(id);
    ComponentsOneLine(a, id);
    hide Field, AllOneLine, ComponentText, ServiceOf, PtFile, GgufFile, DefaultPartitionId, ToString;
    var l6 := ComponentText(a, id);
    FieldThenLines(2, Backend, " " + "llama", l6);
    var l5 := [Field(2, Backend, " " + "llama")] + l6;
    FieldThenLines(2, NativePartitionFile, " " + GgufFile(a, id), l5);
    FieldThenLines(2, PartitionFile, " " + PtFile(a, id), [Field(2, NativePartitionFile, " " + GgufFile(a, id))] + l5);
    var l3 := FilesText(a, id);
    FieldThenLines(2, PhysicalNode, " " + a.physicalNodes[id - 1], l3);
    var l2 := [Field(2, PhysicalNode, " " + a.physicalNodes[id - 1])] + l3;
    FieldThenLines(2, ServiceName, " " + ServiceOf(a, id), l2);
    FieldThenLines(2, PartitionId, " " + DefaultPartitionId(id), [Field(2, ServiceName, " " + ServiceOf(a, id))] + l2);
    FieldThenLines(0, StageId, " " + ToString(id), EntryText(a, id));
  }

  lemma {:induction false} BlocksOneLine(a: MapArgs, count: nat)
    requires ValidArgs(a) && count <= a.numStages
    ensures AllOneLine(StageBlocks(a, count))
  {
    if count == 0 {
    } else {
      hide StageBlock;
      BlocksOneLine(a, count - 1);
      BlockOneLine(a, count);
    }
  }

  lemma {:induction false} RoutesOneLine(a: MapArgs, count: nat)
    requires ValidArgs(a)
    ensures AllOneLine(RouteLines(a, count))
  {
    if count == 0 {
    } else {
      hide ToString, UrlOf;
      RoutesOneLine(a, count - 1);
      TextsOneLine(a, count + 1);
      NumberOneLine(count);
    }
  }

  lemma TopologyOneLine()
    ensures AllOneLine(TOPOLOGY_HEAD) && Indented(TOPOLOGY_HEAD)
  {}

  lemma MapOneLine(a: MapArgs)
    requires ValidArgs(a)
    ensures AllOneLine(MapLines(a))
  {
    HeaderOneLine(a);
    BlocksOneLine(a, a.numStages);
    RoutesOneLine(a, a.numStages - 1);
    TopologyOneLine();
    var rest := TailLines(a);
    hide HeaderLines, StageBlocks, RouteLines, Field, AllOneLine, TOPOLOGY_HEAD;
    AppendOneLine(TOPOLOGY_HEAD, RouteLines(a, a.numStages - 1));
    FieldThenLines(0, Topology, "", rest);
    AppendOneLine(HeaderLines(a), StageBlocks(a, a.numStages));
    AppendOneLine(HeaderLines(a) + StageBlocks(a, a.numStages), [Field(0, Topology, "")] + rest);
  }

  // ---- the graph that comes out ----

  lemma ShareFollows(n: nat, k: nat, i: nat)
    requires 0 < k
    ensures FirstLayers(Start(n, k, i)) + Share(n, k, i) == FirstLayers(Start(n, k, i + 1))
  {
    NextStart(n, k, i);
    hide Start;
  }

  lemma AllLayersSnoc(ps: seq<Partition>, p: Partition)
    ensures AllLayers(ps + [p]) == AllLayers(ps) + p.components.layers
  {
    assert (ps + [p])[..|ps|] == ps;
  }

  lemma {:induction false} ExpectedLayers(a: MapArgs, count: nat)
    requires Counts(a) && count <= a.numStages
    ensures AllLayers(Expected(a, count)) == FirstLayers(Start(a.numLayers, a.numStages, count))
  {
    if count == 0 {
      LastStart(a.numLayers, a.numStages);
      hide Start;
    } else {
      ExpectedLayers(a, count - 1);
      OneMoreExpected(a, count);
      var p := Reading(a, count, DefaultPartitionId(count));
      assert p.components.layers == Share(a.numLayers, a.numStages, count - 1);
      hide *;
      AllLayersSnoc(Expected(a, count - 1), p);
      ShareFollows(a.numLayers, a.numStages, count - 1);
    }
  }

  lemma ReadingRoles(a: MapArgs, id: nat)
    requires Counts(a) && 1 <= id <= a.numStages
    ensures var r := Reading(a, id, DefaultPartitionId(id));
            && (OwnsEmbedding(r) <==> id == 1)
            && (OwnsHead(r) <==> id == a.numStages)
            && (IsTerminal(r) <==> id == a.numStages)
  {
    UrlIsPlain(a, id + 1);
    hide Scalar, UrlOf, DefaultPartitionId, ServiceOf;
  }

  lemma OnlyAt(ps: seq<Partition>, owns: Partition -> bool, at: nat)
    requires at < |ps| && forall i :: 0 <= i < |ps| ==> (owns(ps[i]) <==> i == at)
    ensures ExactlyOne(ps, owns)
  {
    assert owns(ps[at]);
  }

  lemma ExpectedLayersOk(a: MapArgs)
    requires Counts(a)
    ensures LayersOk(AllLayers(Expected(a, a.numStages)), a.numLayers)
  {
    ExpectedLayers(a, a.numStages);
    LastStart(a.numLayers, a.numStages);
    hide Expected, AllLayers, LayersOk, Start;
    LayersArePermutation(FirstLayers(a.numLayers), a.numLayers);
  }

  lemma ExpectedRoles(a: MapArgs, i: nat)
    requires Counts(a) && i < a.numStages
    ensures var p := Expected(a, a.numStages)[i];
            && p == Reading(a, i + 1, DefaultPartitionId(i + 1))
            && p.partitionId != "" && p.serviceName != ""
            && (OwnsEmbedding(p) <==> i == 0)
            && (OwnsHead(p) <==> i == a.numStages - 1)
            && (IsTerminal(p) <==> i == a.numStages - 1)
  {
    hide Reading, OwnsEmbedding, OwnsHead, IsTerminal, DefaultPartitionId;
    ReadingIsComplete(a, i + 1);
    ReadingRoles(a, i + 1);
  }

  /** The printed partitions are one whole model. */
  lemma ExpectedGraphOk(a: MapArgs)
    requires Counts(a)
    ensures GraphOk(Expected(a, a.numStages), a.numLayers)
  {
    var ps := Expected(a, a.numStages);
    ExpectedLayersOk(a);
    assert |ps| == a.numStages;
    hide Expected, AllLayers, LayersOk, OwnsEmbedding, OwnsHead, IsTerminal, ExactlyOne;
    forall i | 0 <= i < |ps| ensures ps[i].partitionId != "" && ps[i].serviceName != ""
      && (OwnsEmbedding(ps[i]) <==> i == 0) && (OwnsHead(ps[i]) <==> i == a.numStages - 1)
      && (IsTerminal(ps[i]) <==> i == a.numStages - 1)
    {
      ExpectedRoles(a, i);
    }
    OnlyAt(ps, OwnsEmbedding, 0);
    OnlyAt(ps, OwnsHead, a.numStages - 1);
    OnlyAt(ps, IsTerminal, a.numStages - 1);
  }

  /** The gateway reads a printed map back into exactly the printed partitions, and accepts
      their graph. */
  lemma GatewayRoundTrip(a: MapArgs)
    requires ValidArgs(a)
    ensures LoadGateway(Render(MapLines(a))) == Ok(ExpectedConfig(a, a.numStages))
    ensures GraphOk(Expected(a, a.numStages), a.numLayers)
  {
    MapOneLine(a);
    LinesOfRender(MapLines(a));
    ReadMapLines(a);
    ExpectedGraphOk(a);
    hide MapLines, GatewayLines, Expected, GraphOk, Scalar, UrlOf, ModelDir;
  }
}
