/** The two readers of a stage map: the gateway reads every partition and checks the graph,
    a stage reads its own entry. */
module StageMapLoaders {
  import opened Basics
  import opened Decimal
  import opened TextLines
  import opened ConfigText
  import opened PartitionGraph

  datatype LoadError = BadNumber | NoStageId | BadStageId | NoServiceName | BadGraph

  const NO_COMPONENTS := Components(false, [], false, false)
  const NO_PARTITION := Partition(0, "", "", "", "", "", "", "", NO_COMPONENTS)

  /** An entry being read and the two nested sections it can be in. */
  datatype Entry = Entry(inComponents: bool, inLayers: bool, node: Partition)

  /** One line inside an entry. The stage loader does not keep the partition id. */
  function EntryLine(e: Entry, keepsId: bool, indent: nat, t: string): Option<Entry> {
    if IsField(t, ComponentsOf) then Some(e.(inComponents := true, inLayers := false))
    else if e.inComponents && indent > 2 then ComponentLine(e, t)
    else Some(Entry(false, !e.inComponents && e.inLayers, PartitionField(e.node, keepsId, t)))
  }

  function PartitionField(n: Partition, keepsId: bool, t: string): Partition {
    var v := AfterColon(t);
    if keepsId && IsField(t, PartitionId) then n.(partitionId := v)
    else if IsField(t, ServiceName) then n.(serviceName := v)
    else if IsField(t, PhysicalNode) then n.(physicalNode := v)
    else if IsField(t, PartitionFile) then n.(partitionFile := v)
    else if IsField(t, NativePartitionFile) then n.(nativePartitionFile := v)
    else if IsField(t, Backend) then n.(backend := v)
    else if IsField(t, NextStageUrl) then n.(nextStageUrl := v)
    else n
  }

  function ComponentLine(e: Entry, t: string): Option<Entry> {
    var c, on := e.node.components, ParseBool(AfterColon(t));
    if IsField(t, Embedding) then Some(e.(node := e.node.(components := c.(embedding := on))))
    else if IsField(t, Norm) then Some(e.(node := e.node.(components := c.(norm := on))))
    else if IsField(t, LmHead) then Some(e.(node := e.node.(components := c.(lmHead := on))))
    else if IsField(t, Layers) then Some(e.(inLayers := true))
    else if e.inLayers && IsDash(t) then
      var item := Trim(t[1..]);
      if item == "" then Some(e)
      else
        match Stoi(item)
        case None => None
        case Some(i) => Some(e.(node := e.node.(components := c.(layers := c.layers + [i]))))
    else Some(e)
  }

  function StageIdOf(t: string): Result<int, LoadError> {
    if AfterColon(t) == "" then Err(NoStageId)
    else match Stoi(AfterColon(t)) case None => Err(BadNumber) case Some(i) => Ok(i)
  }

  datatype GatewayConfig = GatewayConfig(
    serviceName: string, modelName: string, modelPath: string, firstStageUrl: string,
    port: int, numLayers: int, partitions: seq<Partition>)

  datatype GatewayState = GatewayState(
    config: GatewayConfig, inGateway: bool, inStages: bool, inPartition: bool,
    gatewayIndent: int, entry: Entry)

  const GATEWAY_START := GatewayState(
    GatewayConfig("dli-gateway-cpp", "", "", "", 8000, 0, []),
    false, false, false, -1, Entry(false, false, NO_PARTITION))

  function DefaultPartitionId(stageId: int): string {
    "partition-" + ToString(stageId)
  }

  function Finish(s: GatewayState): Result<GatewayState, LoadError> {
    var n := s.entry.node;
    if !s.inPartition then Ok(s)
    else if n.stageId <= 0 then Err(BadStageId)
    else if n.serviceName == "" then Err(NoServiceName)
    else
      var named := if n.partitionId == "" then n.(partitionId := DefaultPartitionId(n.stageId)) else n;
      Ok(s.(config := s.config.(partitions := s.config.partitions + [named]),
            inPartition := false, entry := s.entry.(node := NO_PARTITION)))
  }

  function LeaveSections(s: GatewayState): GatewayState {
    s.(entry := s.entry.(inComponents := false, inLayers := false))
  }

  function GatewayLine(s: GatewayState, line: string): Result<GatewayState, LoadError> {
    var t := Trim(line);
    var indent := Indent(line);
    if t == "" || IsComment(t) then Ok(s)
    else if indent == 0 then TopLine(s, t)
    else InnerLine(s, indent, t)
  }

  /** The tests that only a line without indentation can pass. */
  function TopLine(s: GatewayState, t: string): Result<GatewayState, LoadError> {
    if IsField(t, ModelName) then Ok(s.(config := s.config.(modelName := AfterColon(t))))
    else if IsField(t, ModelPath) then Ok(s.(config := s.config.(modelPath := AfterColon(t))))
    else if IsField(t, NumLayers) then
      match Stoi(AfterColon(t)) case None => Err(BadNumber)
      case Some(i) => Ok(s.(config := s.config.(numLayers := i)))
    else if IsField(t, InferenceGateway) then
      Ok(LeaveSections(s).(inGateway := true, inStages := false, inPartition := false, gatewayIndent := 0))
    else if IsField(t, InferenceStages) then
      match Finish(s) case Err(e) => Err(e)
      case Ok(f) => Ok(LeaveSections(f).(inGateway := false, inStages := true))
    else if s.inStages && !IsField(t, StageId) then
      match Finish(s) case Err(e) => Err(e)
      case Ok(f) => Ok(LeaveSections(f).(inStages := false))
    else InnerLine(s, 0, t)
  }

  function InnerLine(s: GatewayState, indent: nat, t: string): Result<GatewayState, LoadError> {
    var s := if s.inGateway && indent <= s.gatewayIndent && !IsField(t, InferenceGateway)
             then s.(inGateway := false) else s;
    if s.inGateway && IsField(t, ServiceName) then
      Ok(s.(config := s.config.(serviceName := AfterColon(t))))
    else if s.inGateway && IsField(t, FirstStageUrl) then
      Ok(s.(config := s.config.(firstStageUrl := AfterColon(t))))
    else if s.inGateway && IsField(t, Port) then
      match Stoi(AfterColon(t)) case None => Err(BadNumber)
      case Some(i) => Ok(s.(config := s.config.(port := i)))
    else if !s.inStages then Ok(s)
    else if IsField(t, StageId) then
      match Finish(s) case Err(e) => Err(e)
      case Ok(f) =>
        match StageIdOf(t) case Err(e) => Err(e)
        case Ok(id) =>
          var entered := NO_PARTITION.(stageId := id, partitionId := DefaultPartitionId(id));
          Ok(f.(inPartition := true, entry := Entry(false, false, entered)))
    else if !s.inPartition then Ok(s)
    else
      match EntryLine(s.entry, true, indent, t) case None => Err(BadNumber)
      case Some(e) => Ok(s.(entry := e))
  }

  function GatewayLines(s: GatewayState, lines: seq<string>): Result<GatewayState, LoadError>
    decreases |lines|
  {
    if lines == [] then Ok(s)
    else
      match GatewayLine(s, lines[0]) case Err(e) => Err(e)
      case Ok(next) => GatewayLines(next, lines[1..])
  }

  ghost function LoadGateway(text: string): Result<GatewayConfig, LoadError> {
    match GatewayLines(GATEWAY_START, Lines(text)) case Err(e) => Err(e)
    case Ok(s) =>
      match Finish(s) case Err(e) => Err(e)
      case Ok(f) => if GraphOk(f.config.partitions, f.config.numLayers) then Ok(f.config) else Err(BadGraph)
  }

  lemma {:induction false} GatewayLinesAppend(s: GatewayState, a: seq<string>, b: seq<string>)
    ensures GatewayLines(s, a + b)
         == match GatewayLines(s, a) case Err(e) => Err(e) case Ok(m) => GatewayLines(m, b)
    decreases |a|
  {
    hide GatewayLine;
    if a == [] {
      assert a + b == b;
    } else {
      assert (a + b)[1..] == a[1..] + b;
      if GatewayLine(s, a[0]).Ok? {
        GatewayLinesAppend(GatewayLine(s, a[0]).value, a[1..], b);
      }
    }
  }

  method LoadGatewayConfig(text: string) returns (r: Result<GatewayConfig, LoadError>)
    ensures r == LoadGateway(text)
    ensures r.Ok? ==> GraphOk(r.value.partitions, r.value.numLayers)
  {
    hide GatewayLine, GraphOk;
    var lines := Lines(text);
    var s := GATEWAY_START;
    for i := 0 to |lines|
      invariant GatewayLines(GATEWAY_START, lines) == GatewayLines(s, lines[i..])
    {
      assert lines[i..][1..] == lines[i + 1..];
      match GatewayLine(s, lines[i]) {
        case Err(e) => return Err(e);
        case Ok(next) => s := next;
      }
    }
    match Finish(s) {
      case Err(e) => return Err(e);
      case Ok(f) =>
        var v := ValidatePartitionGraph(f.config.partitions, f.config.numLayers);
        if v.Accepted? { return Ok(f.config); }
        return Err(BadGraph);
    }
  }

  /** The stage loader's state; its entry's node carries the configuration, without an id. */
  datatype StageState = StageState(inStages: bool, inTarget: bool, done: bool, entry: Entry)

  function StageStart(wanted: int): StageState {
    StageState(false, false, false, Entry(false, false, NO_PARTITION.(stageId := wanted)))
  }

  function StageLine(s: StageState, wanted: int, line: string): Result<StageState, LoadError> {
    var t := Trim(line);
    var indent := Indent(line);
    if s.done || t == "" || IsComment(t) then Ok(s)
    else if !s.inStages then Ok(s.(inStages := indent == 0 && IsField(t, InferenceStages)))
    else if indent == 0 && !IsField(t, StageId) && !IsField(t, InferenceStages) then Ok(s.(done := true))
    else if IsField(t, StageId) then
      match StageIdOf(t) case Err(e) => Err(e)
      case Ok(id) =>
        var n := if id == wanted then s.entry.node.(components := s.entry.node.components.(layers := []))
                 else s.entry.node;
        Ok(s.(inTarget := id == wanted, entry := Entry(false, false, n)))
    else if !s.inTarget then Ok(s)
    else
      match EntryLine(s.entry, false, indent, t) case None => Err(BadNumber)
      case Some(e) => Ok(s.(entry := e))
  }

  function StageLines(s: StageState, wanted: int, lines: seq<string>): Result<StageState, LoadError>
    decreases |lines|
  {
    if lines == [] then Ok(s)
    else
      match StageLine(s, wanted, lines[0]) case Err(e) => Err(e)
      case Ok(next) => StageLines(next, wanted, lines[1..])
  }

  function LoadStage(text: string, wanted: int): Result<Partition, LoadError> {
    match StageLines(StageStart(wanted), wanted, Lines(text)) case Err(e) => Err(e)
    case Ok(s) => if s.entry.node.serviceName == "" then Err(NoServiceName) else Ok(s.entry.node)
  }

  lemma {:induction false} StageLinesAppend(s: StageState, wanted: int, a: seq<string>, b: seq<string>)
    ensures StageLines(s, wanted, a + b)
         == match StageLines(s, wanted, a) case Err(e) => Err(e) case Ok(m) => StageLines(m, wanted, b)
    decreases |a|
  {
    hide StageLine;
    if a == [] {
      assert a + b == b;
    } else {
      assert (a + b)[1..] == a[1..] + b;
      if StageLine(s, wanted, a[0]).Ok? {
        StageLinesAppend(StageLine(s, wanted, a[0]).value, wanted, a[1..], b);
      }
    }
  }

  lemma {:induction false} DoneStaysDone(s: StageState, wanted: int, lines: seq<string>)
    requires s.done
    ensures StageLines(s, wanted, lines) == Ok(s)
    decreases |lines|
  {
    if lines != [] { DoneStaysDone(s, wanted, lines[1..]); }
  }

  method LoadStageConfig(text: string, wanted: int) returns (r: Result<Partition, LoadError>)
    ensures r == LoadStage(text, wanted)
  {
    hide StageLine;
    var lines := Lines(text);
    var s := StageStart(wanted);
    var i := 0;
    while i < |lines| && !s.done
      invariant 0 <= i <= |lines|
      invariant StageLines(StageStart(wanted), wanted, lines) == StageLines(s, wanted, lines[i..])
    {
      assert lines[i..][1..] == lines[i + 1..];
      match StageLine(s, wanted, lines[i]) {
        case Err(e) => return Err(e);
        case Ok(next) => s := next;
      }
      i := i + 1;
    }
    if s.done { DoneStaysDone(s, wanted, lines[i..]); }
    if s.entry.node.serviceName == "" { return Err(NoServiceName); }
    return Ok(s.entry.node);
  }

  /** Several lines inside an entry. */
  function EntryLines(e: Entry, keepsId: bool, lines: seq<string>): Option<Entry>
    decreases |lines|
  {
    if lines == [] then Some(e)
    else
      var t := Trim(lines[0]);
      if t == "" || IsComment(t) then EntryLines(e, keepsId, lines[1..])
      else
        match EntryLine(e, keepsId, Indent(lines[0]), t) case None => None
        case Some(next) => EntryLines(next, keepsId, lines[1..])
  }

  /** A line that can belong to an entry: indented, and not the start of the next one. */
  ghost predicate Inside(line: string) {
    var t := Trim(line);
    t == "" || IsComment(t) || (Indent(line) > 0 && !IsField(t, StageId))
  }

  lemma {:induction false} GatewayReadsEntry(s: GatewayState, lines: seq<string>)
    requires s.inStages && s.inPartition && !s.inGateway
    requires forall i :: 0 <= i < |lines| ==> Inside(lines[i])
    ensures GatewayLines(s, lines)
         == match EntryLines(s.entry, true, lines) case None => Err(BadNumber) case Some(e) => Ok(s.(entry := e))
    decreases |lines|
  {
    hide Trim, Indent, IsField, IsComment, EntryLine;
    if lines == [] {
    } else {
      assert Inside(lines[0]);
      var t := Trim(lines[0]);
      var next := if t == "" || IsComment(t) then Some(s.entry)
                  else EntryLine(s.entry, true, Indent(lines[0]), t);
      if next.Some? { GatewayReadsEntry(s.(entry := next.value), lines[1..]); }
    }
  }

  lemma {:induction false} StageReadsEntry(s: StageState, wanted: int, lines: seq<string>)
    requires s.inStages && !s.done
    requires forall i :: 0 <= i < |lines| ==> Inside(lines[i])
    ensures StageLines(s, wanted, lines)
         == if !s.inTarget then Ok(s) else
            match EntryLines(s.entry, false, lines) case None => Err(BadNumber) case Some(e) => Ok(s.(entry := e))
    decreases |lines|
  {
    hide Trim, Indent, IsField, IsComment, EntryLine;
    if lines == [] {
    } else {
      assert Inside(lines[0]);
      var t := Trim(lines[0]);
      var next := if !s.inTarget || t == "" || IsComment(t) then Some(s.entry)
                  else EntryLine(s.entry, false, Indent(lines[0]), t);
      if next.Some? { StageReadsEntry(s.(entry := next.value), wanted, lines[1..]); }
    }
  }
}
