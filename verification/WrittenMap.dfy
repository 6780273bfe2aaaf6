/** Stage maps as anyone may write them: the keys of a stage in any order, repeated or missing,
    with any values. What both loaders make of them. */
module WrittenMap {
  import opened Basics
  import opened Decimal
  import opened TextLines
  import opened ConfigText
  import opened PartitionGraph
  import opened StageMapLoaders
  import opened StageMap
  import opened StageMapEntries
  import opened StageMapRoundTrip
  import opened StageMapAgreement

  // ----- Written stages -----

  /** `key:text`. */
  datatype Line = Line(k: Key, text: string)

  /** One stage: its id, keys before and after its components, the components' switches and
      its layers. */
  datatype Stage = Stage(id: string, before: seq<Line>, switches: seq<Line>, layers: seq<int>, after: seq<Line>)

  /** Any key that starts nothing new; those that mean nothing here are passed over. */
  predicate StageKey(k: Key) {
    k != ComponentsOf && k != StageId
  }

  predicate SwitchKey(k: Key) {
    k != ComponentsOf && k != StageId && k != Layers
  }

  /** The keys with a meaning, but for the partition id, which a stage does not read. */
  predicate NamedKey(k: Key) {
    k in {ServiceName, PhysicalNode, PartitionFile, NativePartitionFile, Backend, NextStageUrl}
  }

  ghost predicate StageKeys(lines: seq<Line>) {
    forall i :: 0 <= i < |lines| ==> StageKey(lines[i].k)
  }

  ghost predicate SwitchKeys(lines: seq<Line>) {
    forall i :: 0 <= i < |lines| ==> SwitchKey(lines[i].k)
  }

  ghost predicate Written(st: Stage) {
    && StageKeys(st.before) && StageKeys(st.after) && SwitchKeys(st.switches)
    && forall i :: 0 <= i < |st.layers| ==> 0 <= st.layers[i] <= INT_MAX
  }

  function Fields(indent: nat, lines: seq<Line>): seq<string> {
    if lines == [] then [] else [Field(indent, lines[0].k, lines[0].text)] + Fields(indent, lines[1..])
  }

  function Body(st: Stage): seq<string> {
    Fields(2, st.before) +
    ([Field(2, ComponentsOf, "")] +
    (Fields(4, st.switches) +
    ([Field(4, Layers, "")] +
    (Items(4, st.layers) + Fields(2, st.after)))))
  }

  function Block(st: Stage): seq<string> {
    [Field(0, StageId, st.id)] + Body(st)
  }

  function Blocks(stages: seq<Stage>): seq<string> {
    if stages == [] then [] else Block(stages[0]) + Blocks(stages[1..])
  }

  // ----- What they mean -----

  /** The last value given for a key, and otherwise what there was before. */
  function ValueOr(lines: seq<Line>, k: Key, otherwise: string): string {
    if lines == [] then otherwise
    else
      var last := lines[|lines| - 1];
      if last.k == k then Scalar(last.text) else ValueOr(lines[..|lines| - 1], k, otherwise)
  }

  function ValueOf(lines: seq<Line>, k: Key): string {
    ValueOr(lines, k, "")
  }

  predicate On(lines: seq<Line>, k: Key) {
    ValueOf(lines, k) in {"true", "True", "yes", "1"}
  }

  /** The stage as it is meant; a stage without a partition id, or an empty one, is named by
      its number. */
  function Meant(st: Stage, id: int, partitionId: string): Partition {
    var lines := st.before + st.after;
    Partition(id, partitionId,
              ValueOf(lines, ServiceName), ValueOf(lines, PhysicalNode), ValueOf(lines, PartitionFile),
              ValueOf(lines, NativePartitionFile), ValueOf(lines, Backend), ValueOf(lines, NextStageUrl),
              Components(On(st.switches, Embedding), st.layers, On(st.switches, Norm), On(st.switches, LmHead)))
  }

  function NumberOf(st: Stage): Result<int, LoadError> {
    if Scalar(st.id) == "" then Err(NoStageId)
    else match Stoi(Scalar(st.id)) case None => Err(BadNumber) case Some(i) => Ok(i)
  }

  /** The gateway's view of a stage, or what is wrong with it. */
  function MeantByGateway(st: Stage): Result<Partition, LoadError> {
    match NumberOf(st)
    case Err(e) => Err(e)
    case Ok(id) =>
      var lines := st.before + st.after;
      var named := if ValueOf(lines, PartitionId) == "" then "partition-" + ToString(id) else ValueOf(lines, PartitionId);
      if id <= 0 then Err(BadStageId)
      else if ValueOf(lines, ServiceName) == "" then Err(NoServiceName)
      else Ok(Meant(st, id, named))
  }

  /** All stages in order, or the first thing that is wrong. */
  function AllMeant(stages: seq<Stage>): Result<seq<Partition>, LoadError> {
    if stages == [] then Ok([])
    else
      match MeantByGateway(stages[0])
      case Err(e) => Err(e)
      case Ok(p) => match AllMeant(stages[1..]) case Err(e) => Err(e) case Ok(ps) => Ok([p] + ps)
  }

  // ----- Reading one stage -----

  lemma {:induction false} EntryLinesAppend(e: Entry, keepsId: bool, x: seq<string>, y: seq<string>)
    ensures EntryLines(e, keepsId, x + y)
         == match EntryLines(e, keepsId, x) case None => None case Some(m) => EntryLines(m, keepsId, y)
    decreases |x|
  {
    hide EntryLine, Trim, Indent, IsComment;
    if x == [] {
      assert x + y == y;
    } else {
      assert (x + y)[1..] == x[1..] + y;
      var t := Trim(x[0]);
      if t == "" || IsComment(t) {
        EntryLinesAppend(e, keepsId, x[1..], y);
      } else if EntryLine(e, keepsId, Indent(x[0]), t).Some? {
        EntryLinesAppend(EntryLine(e, keepsId, Indent(x[0]), t).value, keepsId, x[1..], y);
      }
    }
  }

  /** The fields one after the other. */
  function WithFields(n: Partition, keepsId: bool, lines: seq<Line>): Partition {
    if lines == [] then n
    else
      var last := lines[|lines| - 1];
      WithField(WithFields(n, keepsId, lines[..|lines| - 1]), keepsId, last.k, Scalar(last.text))
  }

  function WithSwitches(c: Components, lines: seq<Line>): Components {
    if lines == [] then c
    else
      var last := lines[|lines| - 1];
      WithComponent(WithSwitches(c, lines[..|lines| - 1]), last.k, ParseBool(Scalar(last.text)))
  }

  lemma {:induction false} FieldsSnoc(indent: nat, lines: seq<Line>, last: Line)
    ensures Fields(indent, lines + [last]) == Fields(indent, lines) + [Field(indent, last.k, last.text)]
  {
    hide Field;
    if lines == [] {
      assert [] + [last] == [last] && [last][1..] == [];
    } else {
      assert (lines + [last])[1..] == lines[1..] + [last] && (lines + [last])[0] == lines[0];
      FieldsSnoc(indent, lines[1..], last);
    }
  }

  lemma {:induction false} ReadFields(e: Entry, keepsId: bool, lines: seq<Line>)
    requires StageKeys(lines)
    ensures var r := EntryLines(e, keepsId, Fields(2, lines));
      && r.Some? && r.value.node == WithFields(e.node, keepsId, lines)
      && (!e.inComponents && !e.inLayers ==> !r.value.inComponents && !r.value.inLayers)
    decreases |lines|
  {
    if lines == [] {
    } else {
      var init, last := lines[..|lines| - 1], lines[|lines| - 1];
      assert lines == init + [last] && StageKey(last.k);
      ReadFields(e, keepsId, init);
      FieldsSnoc(2, init, last);
      var line := [Field(2, last.k, last.text)];
      EntryLinesAppend(e, keepsId, Fields(2, init), line);
      var m := EntryLines(e, keepsId, Fields(2, init)).value;
      ReadField(m, keepsId, last.k, last.text, []);
      assert line + [] == line;
      hide Field, WithField, Scalar, Fields;
    }
  }

  function Switched(e: Entry, k: Key, v: string): Entry {
    e.(node := e.node.(components := WithComponent(e.node.components, k, ParseBool(v))))
  }

  lemma SwitchIsKept(e: Entry, k: Key, t: string)
    requires SwitchKey(k) && !IsDash(t) && forall j :: IsField(t, j) <==> j == k
    ensures ComponentLine(e, t) == Some(Switched(e, k, AfterColon(t)))
  {
    hide IsField, AfterColon, ParseBool, IsDash;
  }

  lemma ReadSwitch(e: Entry, keepsId: bool, k: Key, text: string, rest: seq<string>)
    requires e.inComponents && SwitchKey(k)
    ensures EntryLines(e, keepsId, [Field(4, k, text)] + rest) == EntryLines(Switched(e, k, Scalar(text)), keepsId, rest)
  {
    hide Trim, Indent, IsField, IsComment, AfterColon, Scalar, Field, IsDash, Switched, ComponentLine, EntryLines;
    FieldIsSeen(4, k, text);
    SwitchIsKept(e, k, Trim(Field(4, k, text)));
    ReadOne(e, keepsId, Field(4, k, text), rest);
  }

  lemma {:induction false} ReadSwitches(e: Entry, keepsId: bool, lines: seq<Line>)
    requires e.inComponents && SwitchKeys(lines)
    ensures EntryLines(e, keepsId, Fields(4, lines))
         == Some(e.(node := e.node.(components := WithSwitches(e.node.components, lines))))
    decreases |lines|
  {
    if lines == [] {
    } else {
      var init, last := lines[..|lines| - 1], lines[|lines| - 1];
      assert lines == init + [last] && SwitchKey(last.k);
      hide Field, WithComponent, Scalar, Fields, ParseBool, EntryLines;
      ReadSwitches(e, keepsId, init);
      FieldsSnoc(4, init, last);
      var line := [Field(4, last.k, last.text)];
      EntryLinesAppend(e, keepsId, Fields(4, init), line);
      var m := EntryLines(e, keepsId, Fields(4, init)).value;
      ReadSwitch(m, keepsId, last.k, last.text, []);
      assert line + [] == line;
      NoEntryLines(Switched(m, last.k, Scalar(last.text)), keepsId);
    }
  }

  lemma NoEntryLines(e: Entry, keepsId: bool)
    ensures EntryLines(e, keepsId, []) == Some(e)
  {}

  function BodyRead(n: Partition, keepsId: bool, st: Stage): Partition {
    var m := WithFields(n, keepsId, st.before);
    var c := WithSwitches(m.components, st.switches);
    WithFields(m.(components := c.(layers := c.layers + st.layers)), keepsId, st.after)
  }

  lemma ReadBody(e: Entry, keepsId: bool, st: Stage)
    requires Written(st) && !e.inComponents && !e.inLayers
    ensures var r := EntryLines(e, keepsId, Body(st));
      r.Some? && r.value.node == BodyRead(e.node, keepsId, st)
  {
    hide EntryLines, Field, Fields, Items, WithFields, WithSwitches;
    var l4 := Items(4, st.layers) + Fields(2, st.after);
    var l3 := [Field(4, Layers, "")] + l4;
    var l2 := Fields(4, st.switches) + l3;
    var l1 := [Field(2, ComponentsOf, "")] + l2;
    ReadFields(e, keepsId, st.before);
    EntryLinesAppend(e, keepsId, Fields(2, st.before), l1);
    var e1 := EntryLines(e, keepsId, Fields(2, st.before)).value;
    ReadComponents(e1, keepsId, l2);
    var e2 := e1.(inComponents := true, inLayers := false);
    ReadSwitches(e2, keepsId, st.switches);
    EntryLinesAppend(e2, keepsId, Fields(4, st.switches), l3);
    var e3 := EntryLines(e2, keepsId, Fields(4, st.switches)).value;
    ReadLayers(e3, keepsId, l4);
    ReadItems(e3.(inLayers := true), keepsId, st.layers, Fields(2, st.after));
    ReadFields(WithLayers(e3.(inLayers := true), st.layers), keepsId, st.after);
  }

  // ----- What was read is what was meant -----

  function Get(n: Partition, k: Key): string {
    match k
    case PartitionId => n.partitionId
    case ServiceName => n.serviceName
    case PhysicalNode => n.physicalNode
    case PartitionFile => n.partitionFile
    case NativePartitionFile => n.nativePartitionFile
    case Backend => n.backend
    case NextStageUrl => n.nextStageUrl
    case _ => ""
  }

  lemma {:induction false} FieldsSay(n: Partition, keepsId: bool, lines: seq<Line>)
    requires StageKeys(lines)
    ensures var r := WithFields(n, keepsId, lines);
      && r.stageId == n.stageId && r.components == n.components
      && (forall k :: NamedKey(k) ==> Get(r, k) == ValueOr(lines, k, Get(n, k)))
      && r.partitionId == if keepsId then ValueOr(lines, PartitionId, n.partitionId) else n.partitionId
    decreases |lines|
  {
    hide Scalar;
    if lines != [] {
      assert StageKey(lines[|lines| - 1].k);
      FieldsSay(n, keepsId, lines[..|lines| - 1]);
    }
  }

  lemma {:induction false} SwitchesSay(c: Components, lines: seq<Line>)
    requires SwitchKeys(lines) && !c.embedding && !c.norm && !c.lmHead
    ensures WithSwitches(c, lines) == Components(On(lines, Embedding), c.layers, On(lines, Norm), On(lines, LmHead))
    decreases |lines|
  {
    hide Scalar;
    if lines != [] {
      assert SwitchKey(lines[|lines| - 1].k);
      SwitchesSay(c, lines[..|lines| - 1]);
    }
  }

  lemma {:induction false} ValueTwice(x: seq<Line>, y: seq<Line>, k: Key, otherwise: string)
    ensures ValueOr(x + y, k, otherwise) == ValueOr(y, k, ValueOr(x, k, otherwise))
    decreases |y|
  {
    hide Scalar;
    if y == [] {
      assert x + y == x;
    } else {
      assert (x + y)[..|x + y| - 1] == x + y[..|y| - 1] && (x + y)[|x + y| - 1] == y[|y| - 1];
      ValueTwice(x, y[..|y| - 1], k, otherwise);
    }
  }

  lemma {:induction false} GivenOrNot(lines: seq<Line>, k: Key, otherwise: string)
    ensures ValueOr(lines, k, otherwise) == ValueOf(lines, k)
      || (ValueOr(lines, k, otherwise) == otherwise && ValueOf(lines, k) == "")
    decreases |lines|
  {
    hide Scalar;
    if lines != [] { GivenOrNot(lines[..|lines| - 1], k, otherwise); }
  }

  /** The body of a stage, read into an entry without anything but an id, is what was meant. */
  lemma BodySays(n: Partition, keepsId: bool, st: Stage)
    requires Written(st) && n == NO_PARTITION.(stageId := n.stageId, partitionId := n.partitionId)
    ensures BodyRead(n, keepsId, st)
         == Meant(st, n.stageId,
                  if keepsId then ValueOr(st.before + st.after, PartitionId, n.partitionId) else n.partitionId)
  {
    hide WithFields, WithSwitches, ValueOr, On;
    var m := WithFields(n, keepsId, st.before);
    FieldsSay(n, keepsId, st.before);
    SwitchesSay(m.components, st.switches);
    var c := WithSwitches(m.components, st.switches);
    var q := m.(components := c.(layers := c.layers + st.layers));
    FieldsSay(q, keepsId, st.after);
    assert [] + st.layers == st.layers;
    var r := WithFields(q, keepsId, st.after);
    forall k | NamedKey(k) ensures Get(r, k) == ValueOf(st.before + st.after, k) {
      ValueTwice(st.before, st.after, k, "");
      assert Get(q, k) == Get(m, k) && Get(n, k) == "";
    }
    ValueTwice(st.before, st.after, PartitionId, n.partitionId);
    hide ValueOf;
    ByKeys(r, st.before + st.after);
  }

  lemma ByKeys(r: Partition, lines: seq<Line>)
    requires forall k :: NamedKey(k) ==> Get(r, k) == ValueOf(lines, k)
    ensures r.serviceName == ValueOf(lines, ServiceName) && r.physicalNode == ValueOf(lines, PhysicalNode)
    ensures r.partitionFile == ValueOf(lines, PartitionFile) && r.nativePartitionFile == ValueOf(lines, NativePartitionFile)
    ensures r.backend == ValueOf(lines, Backend) && r.nextStageUrl == ValueOf(lines, NextStageUrl)
  {
    hide ValueOf;
    assert Get(r, ServiceName) == r.serviceName && Get(r, PhysicalNode) == r.physicalNode;
    assert Get(r, PartitionFile) == r.partitionFile && Get(r, NativePartitionFile) == r.nativePartitionFile;
    assert Get(r, Backend) == r.backend && Get(r, NextStageUrl) == r.nextStageUrl;
  }

  // ----- The body stays inside its entry -----

  lemma {:induction false} FieldsInside(indent: nat, lines: seq<Line>)
    requires indent > 0 && (StageKeys(lines) || SwitchKeys(lines))
    ensures AllInside(Fields(indent, lines))
  {
    hide Inside, Field;
    if lines != [] {
      FieldsInside(indent, lines[1..]);
      FieldThen(indent, lines[0].k, lines[0].text, Fields(indent, lines[1..]));
    }
  }

  lemma BodyInside(st: Stage)
    requires Written(st)
    ensures AllInside(Body(st))
  {
    hide AllInside, Field, Fields, Items;
    FieldsInside(2, st.before);
    FieldsInside(4, st.switches);
    FieldsInside(2, st.after);
    ItemsInside(st.layers);
    var l4 := Items(4, st.layers) + Fields(2, st.after);
    InsideAppend(Items(4, st.layers), Fields(2, st.after));
    FieldThen(4, Layers, "", l4);
    InsideAppend(Fields(4, st.switches), [Field(4, Layers, "")] + l4);
    FieldThen(2, ComponentsOf, "", Fields(4, st.switches) + ([Field(4, Layers, "")] + l4));
    InsideAppend(Fields(2, st.before), [Field(2, ComponentsOf, "")] + (Fields(4, st.switches) + ([Field(4, Layers, "")] + l4)));
  }

  // ----- The gateway -----

  lemma StageIdIs(st: Stage)
    ensures var t := Trim(Field(0, StageId, st.id));
      StageIdOf(t) == NumberOf(st) && AfterColon(t) == Scalar(st.id)
  {
    hide Trim, Scalar, Stoi, Field, AfterColon, IsField, Indent, IsComment, IsDash;
    FieldIsSeen(0, StageId, st.id);
  }

  function Opened(s: GatewayState, st: Stage): Result<GatewayState, LoadError> {
    var f := Finish(s);
    if f.Err? then Err(f.error)
    else if NumberOf(st).Err? then Err(NumberOf(st).error)
    else
      var id := NumberOf(st).value;
      Ok(f.value.(inPartition := true,
         entry := Entry(false, false, NO_PARTITION.(stageId := id, partitionId := DefaultPartitionId(id)))))
  }

  lemma OnlyStageId(s: GatewayState, t: string)
    requires s.inStages && !s.inGateway && forall k :: IsField(t, k) <==> k == StageId
    ensures TopLine(s, t) == InnerLine(s, 0, t)
    ensures InnerLine(s, 0, t) ==
      if Finish(s).Err? then Err(Finish(s).error)
      else if StageIdOf(t).Err? then Err(StageIdOf(t).error)
      else Ok(Finish(s).value.(inPartition := true, entry := Entry(false, false,
             NO_PARTITION.(stageId := StageIdOf(t).value, partitionId := DefaultPartitionId(StageIdOf(t).value)))))
  {
    hide IsField, AfterColon, Finish, DefaultPartitionId, StageIdOf, EntryLine, Stoi;
  }

  lemma OpeningLine(s: GatewayState, st: Stage)
    requires s.inStages && !s.inGateway
    ensures GatewayLine(s, Field(0, StageId, st.id)) == Opened(s, st)
  {
    FieldIsSeen(0, StageId, st.id);
    StageIdIs(st);
    hide Trim, Indent, IsField, IsComment, AfterColon, Scalar, Field, Finish, DefaultPartitionId, StageIdOf, NumberOf, IsDash;
    hide TopLine, InnerLine;
    OnlyStageId(s, Trim(Field(0, StageId, st.id)));
  }

  /** The line that opens an entry. */
  lemma OpenStage(s: GatewayState, st: Stage, rest: seq<string>)
    requires s.inStages && !s.inGateway
    ensures GatewayLines(s, [Field(0, StageId, st.id)] + rest)
         == if Opened(s, st).Err? then Err(Opened(s, st).error) else GatewayLines(Opened(s, st).value, rest)
  {
    var line := Field(0, StageId, st.id);
    assert ([line] + rest)[1..] == rest && ([line] + rest)[0] == line;
    hide GatewayLine, Opened, Field;
    OpeningLine(s, st);
  }

  /** What a loader makes of the lines and of the end of the text. */
  function AtEnd(s: GatewayState, lines: seq<string>): Result<GatewayConfig, LoadError> {
    var m := GatewayLines(s, lines);
    if m.Err? then Err(m.error)
    else if Finish(m.value).Err? then Err(Finish(m.value).error)
    else Ok(Finish(m.value).value.config)
  }

  lemma FinishMeant(s: GatewayState, st: Stage, id: int)
    requires NumberOf(st) == Ok(id) && s.inPartition
    requires s.entry.node == Meant(st, id, ValueOr(st.before + st.after, PartitionId, DefaultPartitionId(id)))
    ensures var p, f := MeantByGateway(st), Finish(s);
      if p.Err? then f == Err(p.error)
      else f.Ok? && !f.value.inPartition && f.value.config == s.config.(partitions := s.config.partitions + [p.value])
           && f.value.inStages == s.inStages && f.value.inGateway == s.inGateway
  {
    hide ValueOr, On, ToString, NumberOf;
    GivenOrNot(st.before + st.after, PartitionId, DefaultPartitionId(id));
    assert DefaultPartitionId(id) == "partition-" + ToString(id) != "";
  }

  lemma AtEndAppend(s: GatewayState, x: seq<string>, y: seq<string>)
    ensures AtEnd(s, x + y) == if GatewayLines(s, x).Err? then Err(GatewayLines(s, x).error) else AtEnd(GatewayLines(s, x).value, y)
  {
    hide GatewayLines, Finish;
    GatewayLinesAppend(s, x, y);
  }

  /** One stage, read by a gateway that is in the list of stages. */
  lemma GatewayReadsStage(s: GatewayState, st: Stage)
    requires s.inStages && !s.inGateway && Finish(s).Ok? && Written(st)
    ensures var r := GatewayLines(s, Block(st));
      if NumberOf(st).Err? then r == Err(NumberOf(st).error)
      else
        && r.Ok? && r.value.inStages && !r.value.inGateway && r.value.inPartition && r.value.config == Finish(s).value.config
        && r.value.entry.node == Meant(st, NumberOf(st).value,
             ValueOr(st.before + st.after, PartitionId, DefaultPartitionId(NumberOf(st).value)))
  {
    FinishStays(s);
    BodyInside(st);
    hide Body, Written, GatewayLines, EntryLines, Finish, NumberOf, Meant, ValueOr, DefaultPartitionId, BodyRead, Inside;
    OpenStage(s, st, Body(st));
    if NumberOf(st).Ok? {
      var o := Opened(s, st).value;
      GatewayReadsEntry(o, Body(st));
      ReadBody(o.entry, true, st);
      BodySays(o.entry.node, true, st);
    }
  }

  lemma FinishStays(s: GatewayState)
    ensures Finish(s).Ok? ==> Finish(s).value.inStages == s.inStages && Finish(s).value.inGateway == s.inGateway
  {}

  lemma NumberFirst(st: Stage)
    ensures NumberOf(st).Err? ==> MeantByGateway(st) == Err(NumberOf(st).error)
  {}

  lemma FirstMeant(stages: seq<Stage>)
    ensures AllMeant(stages) ==
      if stages == [] then Ok([])
      else if MeantByGateway(stages[0]).Err? then Err(MeantByGateway(stages[0]).error)
      else if AllMeant(stages[1..]).Err? then Err(AllMeant(stages[1..]).error)
      else Ok([MeantByGateway(stages[0]).value] + AllMeant(stages[1..]).value)
  {
    hide MeantByGateway;
  }

  /** One stage and what follows. */
  lemma GatewayGoesOn(s: GatewayState, st: Stage, more: seq<Stage>) returns (m: GatewayState)
    requires s.inStages && !s.inGateway && Finish(s).Ok? && Written(st)
    ensures MeantByGateway(st).Err? ==> AtEnd(s, Block(st) + Blocks(more)) == Err(MeantByGateway(st).error)
    ensures MeantByGateway(st).Ok? ==>
      && AtEnd(s, Block(st) + Blocks(more)) == AtEnd(m, Blocks(more))
      && m.inStages && !m.inGateway && Finish(m).Ok?
      && Finish(m).value.config
         == Finish(s).value.config.(partitions := Finish(s).value.config.partitions + [MeantByGateway(st).value])
  {
    m := s;
    hide GatewayLines, Block, Blocks, AtEnd, Finish, NumberOf, Meant, MeantByGateway, ValueOr, Written, DefaultPartitionId;
    NumberFirst(st);
    GatewayReadsStage(s, st);
    AtEndAppend(s, Block(st), Blocks(more));
    if NumberOf(st).Ok? {
      m := GatewayLines(s, Block(st)).value;
      FinishMeant(m, st, NumberOf(st).value);
      if Finish(m).Err? { BrokenStays(m, more); }
    }
  }

  lemma NothingMore(s: GatewayState)
    requires Finish(s).Ok?
    ensures AtEnd(s, Blocks([])) == Ok(Finish(s).value.config)
  {
    hide Finish;
  }

  function Added(c: GatewayConfig, ps: seq<Partition>): GatewayConfig {
    c.(partitions := c.partitions + ps)
  }

  lemma AddedTwice(c: GatewayConfig, p: Partition, ps: seq<Partition>)
    ensures Added(c, []) == c && Added(c.(partitions := c.partitions + [p]), ps) == Added(c, [p] + ps)
  {
    assert c.partitions + [p] + ps == c.partitions + ([p] + ps);
    assert c.partitions + [] == c.partitions;
  }

  /** All stages, read by the gateway: each as it is meant, in order, or the first error. */
  lemma {:induction false} GatewayReadsStages(s: GatewayState, stages: seq<Stage>)
    requires s.inStages && !s.inGateway && Finish(s).Ok?
    requires forall st :: st in stages ==> Written(st)
    ensures AtEnd(s, Blocks(stages)) ==
      if AllMeant(stages).Err? then Err(AllMeant(stages).error)
      else Ok(Added(Finish(s).value.config, AllMeant(stages).value))
    decreases |stages|
  {
    assert stages != [] ==> Blocks(stages) == Block(stages[0]) + Blocks(stages[1..]);
    hide *;
    FirstMeant(stages);
    if stages == [] {
      NothingMore(s);
      AddedTwice(Finish(s).value.config, NO_PARTITION, []);
    } else {
      var m := GatewayGoesOn(s, stages[0], stages[1..]);
      if MeantByGateway(stages[0]).Ok? {
        GatewayReadsStages(m, stages[1..]);
        if AllMeant(stages[1..]).Ok? {
          AddedTwice(Finish(s).value.config, MeantByGateway(stages[0]).value, AllMeant(stages[1..]).value);
        }
      }
    }
  }

  /** What is wrong with an open entry comes out at the next one, or at the end. */
  lemma BrokenStays(s: GatewayState, stages: seq<Stage>)
    requires s.inStages && !s.inGateway && Finish(s).Err?
    ensures AtEnd(s, Blocks(stages)) == Err(Finish(s).error)
  {
    hide *;
    if stages == [] {
      NothingOpen(s);
    } else {
      FirstBlock(stages);
      OpenStage(s, stages[0], Body(stages[0]) + Blocks(stages[1..]));
      StillBroken(s, stages[0]);
      AtEndIs(s, Blocks(stages));
    }
  }

  lemma FirstBlock(stages: seq<Stage>)
    requires stages != []
    ensures Blocks(stages) == [Field(0, StageId, stages[0].id)] + (Body(stages[0]) + Blocks(stages[1..]))
  {
    hide Body, Field;
  }

  lemma StillBroken(s: GatewayState, st: Stage)
    requires Finish(s).Err?
    ensures Opened(s, st) == Err(Finish(s).error)
  {
    hide Finish, NumberOf;
  }

  lemma NothingOpen(s: GatewayState)
    requires Finish(s).Err?
    ensures AtEnd(s, Blocks([])) == Err(Finish(s).error)
  {
    hide Finish;
  }

  lemma AtEndIs(s: GatewayState, lines: seq<string>)
    requires GatewayLines(s, lines).Err?
    ensures AtEnd(s, lines) == Err(GatewayLines(s, lines).error)
  {
    hide GatewayLines, Finish;
  }

  // ----- Whole texts -----

  function WrittenLines(n: nat, stages: seq<Stage>): seq<string> {
    [Field(0, NumLayers, " " + ToString(n))] + ([Field(0, InferenceStages, "")] + Blocks(stages))
  }

  /** The gateway reads any such text into the stages as they are meant, if each has a positive
      number and a service name and they make up a whole model of n layers. Otherwise it
      refuses the text, for the first thing that is wrong. */
  lemma GatewayReadsWrittenMap(text: string, n: nat, stages: seq<Stage>)
    requires Lines(text) == WrittenLines(n, stages) && n <= INT_MAX
    requires forall st :: st in stages ==> Written(st)
    ensures LoadGateway(text) ==
      if AllMeant(stages).Err? then Err(AllMeant(stages).error)
      else if GraphOk(AllMeant(stages).value, n)
        then Ok(GatewayConfig("dli-gateway-cpp", "", "", "", 8000, n, AllMeant(stages).value))
      else Err(BadGraph)
  {
    var s := GATEWAY_START.(config := GATEWAY_START.config.(numLayers := n));
    var m := LeaveSections(s).(inGateway := false, inStages := true);
    var opening := [Field(0, InferenceStages, "")];
    assert Finish(m) == Ok(m) && m.inStages && !m.inGateway;
    assert m.config == GatewayConfig("dli-gateway-cpp", "", "", "", 8000, n, []);
    assert forall ps: seq<Partition> :: Added(m.config, ps) == GatewayConfig("dli-gateway-cpp", "", "", "", 8000, n, ps) by {
      forall ps: seq<Partition> ensures [] + ps == ps {}
    }
    LoadedAtEnd(text);
    hide GatewayLines, Field, Blocks, AtEnd, AllMeant, Finish, LoadGateway, GraphOk, Added, LeaveSections, Written;
    LayerCountKey(GATEWAY_START, n, opening + Blocks(stages));
    StagesSection(s);
    GatewayLinesAppend(s, opening, Blocks(stages));
    GatewayReadsStages(m, stages);
    SameEnd(GATEWAY_START, WrittenLines(n, stages), m, Blocks(stages));
  }

  lemma SameEnd(s: GatewayState, x: seq<string>, m: GatewayState, y: seq<string>)
    requires GatewayLines(s, x) == GatewayLines(m, y)
    ensures AtEnd(s, x) == AtEnd(m, y)
  {}

  lemma LoadedAtEnd(text: string)
    ensures LoadGateway(text) ==
      var r := AtEnd(GATEWAY_START, Lines(text));
      if r.Err? then Err(r.error) else if GraphOk(r.value.partitions, r.value.numLayers) then r else Err(BadGraph)
  {
    hide GatewayLines, Finish, GraphOk;
  }

  // ----- A stage's own loader -----

  lemma StageOpens(s: StageState, w: int, st: Stage, rest: seq<string>)
    requires s.inStages && !s.done
    ensures StageLines(s, w, [Field(0, StageId, st.id)] + rest) ==
      if NumberOf(st).Err? then Err(NumberOf(st).error)
      else StageLines(s.(inTarget := NumberOf(st).value == w, entry := Entry(false, false,
             if NumberOf(st).value == w then s.entry.node.(components := s.entry.node.components.(layers := []))
             else s.entry.node)), w, rest)
  {
    FieldIsSeen(0, StageId, st.id);
    StageIdIs(st);
    hide Trim, Indent, IsField, IsComment, AfterColon, Scalar, Field, StageIdOf, NumberOf, IsDash, EntryLine;
    var line := Field(0, StageId, st.id);
    assert ([line] + rest)[1..] == rest && ([line] + rest)[0] == line;
  }

  /** One stage, read by the process of stage w. */
  lemma StageReadsStage(s: StageState, w: int, st: Stage)
    requires s.inStages && !s.done && Written(st)
    ensures var r := StageLines(s, w, Block(st));
      if NumberOf(st).Err? then r == Err(NumberOf(st).error)
      else
        && r.Ok? && r.value.inStages && !r.value.done
        && r.value.entry.node == if NumberOf(st).value == w
             then BodyRead(s.entry.node.(components := s.entry.node.components.(layers := [])), false, st)
             else s.entry.node
  {
    BodyInside(st);
    hide Body, Written, StageLines, EntryLines, NumberOf, BodyRead, Inside, Field;
    StageOpens(s, w, st, Body(st));
    if NumberOf(st).Ok? {
      var own := NumberOf(st).value == w;
      var e := Entry(false, false, if own then s.entry.node.(components := s.entry.node.components.(layers := [])) else s.entry.node);
      StageReadsEntry(s.(inTarget := own, entry := e), w, Body(st));
      if own { ReadBody(e, false, st); }
    }
  }

  /** Stages with other numbers are passed over. */
  lemma {:induction false} StageSkips(s: StageState, w: int, stages: seq<Stage>) returns (m: StageState)
    requires s.inStages && !s.done
    requires forall st :: st in stages ==> Written(st) && NumberOf(st).Ok? && NumberOf(st).value != w
    ensures StageLines(s, w, Blocks(stages)) == Ok(m)
    ensures m.inStages && !m.done && m.entry.node == s.entry.node
    decreases |stages|
  {
    m := s;
    if stages != [] {
      assert Blocks(stages) == Block(stages[0]) + Blocks(stages[1..]);
      hide StageLines, Blocks, Block, NumberOf, Written, BodyRead;
      StageReadsStage(s, w, stages[0]);
      StageLinesAppend(s, w, Block(stages[0]), Blocks(stages[1..]));
      m := StageSkips(StageLines(s, w, Block(stages[0])).value, w, stages[1..]);
    }
  }

  lemma StageBegins(n: nat, w: int, rest: seq<string>)
    ensures StageLines(StageStart(w), w, [Field(0, NumLayers, " " + ToString(n))] + ([Field(0, InferenceStages, "")] + rest))
         == StageLines(StageStart(w).(inStages := true), w, rest)
  {
    hide StageLines, Field, ToString;
    SkipField(StageStart(w), w, 0, NumLayers, " " + ToString(n), [Field(0, InferenceStages, "")] + rest);
    EnterStages(StageStart(w), w);
    StageLinesAppend(StageStart(w), w, [Field(0, InferenceStages, "")], rest);
  }

  lemma BlocksAppend(x: seq<Stage>, y: seq<Stage>)
    ensures Blocks(x + y) == Blocks(x) + Blocks(y)
  {
    hide Block;
    if x == [] {
      assert x + y == y;
    } else {
      assert (x + y)[1..] == x[1..] + y;
      BlocksAppend(x[1..], y);
    }
  }

  /** The process of stage w reads its own stage as it is meant, wherever it stands, if it has a
      service name; a text without it is refused. */
  lemma StageReadsWrittenMap(text: string, n: nat, w: int, before: seq<Stage>, own: seq<Stage>, after: seq<Stage>)
    requires Lines(text) == WrittenLines(n, before + (own + after)) && |own| <= 1
    requires forall st :: st in before || st in own || st in after ==> Written(st) && NumberOf(st).Ok?
    requires forall st :: st in before || st in after ==> NumberOf(st).value != w
    requires forall st :: st in own ==> NumberOf(st).value == w
    ensures LoadStage(text, w) ==
      if own == [] || ValueOf(own[0].before + own[0].after, ServiceName) == "" then Err(NoServiceName)
      else Ok(Meant(own[0], w, ""))
  {
    hide StageLines, Blocks, Block, NumberOf, Written, BodyRead, Field, ValueOf, On;
    BlocksAppend(before, own + after);
    BlocksAppend(own, after);
    StageBegins(n, w, Blocks(before + (own + after)));
    var s := StageStart(w).(inStages := true);
    var m := StageSkips(s, w, before);
    StageLinesAppend(s, w, Blocks(before), Blocks(own) + Blocks(after));
    StageLinesAppend(m, w, Blocks(own), Blocks(after));
    if own == [] {
      OneBlock(own);
      StageNothing(m, w);
      var last := StageSkips(m, w, after);
    } else {
      OneBlock(own);
      assert own[0] in own;
      StageReadsStage(m, w, own[0]);
      BodySays(NO_PARTITION.(stageId := w), false, own[0]);
      var last := StageSkips(StageLines(m, w, Block(own[0])).value, w, after);
    }
  }

  lemma OneBlock(own: seq<Stage>)
    requires |own| <= 1
    ensures Blocks(own) == if own == [] then [] else Block(own[0])
  {
    hide Block;
    if own != [] { assert own[1..] == []; }
  }

  lemma StageNothing(s: StageState, w: int)
    ensures StageLines(s, w, []) == Ok(s)
  {}

  lemma {:induction false} StageGoesOn(s: StageState, w: int, stages: seq<Stage>) returns (m: StageState)
    requires s.inStages && !s.done
    requires forall st :: st in stages ==> Written(st) && NumberOf(st).Ok?
    ensures StageLines(s, w, Blocks(stages)) == Ok(m) && m.inStages && !m.done
    decreases |stages|
  {
    m := s;
    if stages != [] {
      assert Blocks(stages) == Block(stages[0]) + Blocks(stages[1..]);
      hide StageLines, Blocks, Block, NumberOf, Written, BodyRead;
      StageReadsStage(s, w, stages[0]);
      StageLinesAppend(s, w, Block(stages[0]), Blocks(stages[1..]));
      m := StageGoesOn(StageLines(s, w, Block(stages[0])).value, w, stages[1..]);
    }
  }

  /** A stage whose number cannot be read stops every process, even one whose own stage stands
      before it. */
  lemma BadNumberStopsStage(text: string, n: nat, w: int, before: seq<Stage>, bad: Stage, after: seq<Stage>)
    requires Lines(text) == WrittenLines(n, before + ([bad] + after))
    requires forall st :: st in before ==> Written(st) && NumberOf(st).Ok?
    requires Written(bad) && NumberOf(bad).Err?
    ensures LoadStage(text, w) == Err(NumberOf(bad).error)
  {
    hide StageLines, Blocks, Block, NumberOf, Written, BodyRead, Field;
    BlocksAppend(before, [bad] + after);
    BlocksAppend([bad], after);
    OneBlock([bad]);
    StageBegins(n, w, Blocks(before + ([bad] + after)));
    var s := StageStart(w).(inStages := true);
    var m := StageGoesOn(s, w, before);
    StageLinesAppend(s, w, Blocks(before), Blocks([bad]) + Blocks(after));
    StageReadsStage(m, w, bad);
    StageLinesAppend(m, w, Blocks([bad]), Blocks(after));
  }

  // ----- Comments -----

  lemma {:induction false} TrimRightKeepsFirst(v: string)
    requires v != "" && v[0] == '#'
    ensures TrimRight(v) != "" && TrimRight(v)[0] == '#'
  {
    if IsBlank(v[|v| - 1]) || v[|v| - 1] == '\r' { TrimRightKeepsFirst(v[..|v| - 1]); }
  }

  lemma CommentIsSeen(lead: string, v: string)
    requires (forall i :: 0 <= i < |lead| ==> IsBlank(lead[i])) && (v == "" || v[0] == '#')
    ensures Trim(lead + v) == "" || IsComment(Trim(lead + v))
  {
    TrimLeftAfter(lead, v);
    if v != "" { TrimRightKeepsFirst(v); }
  }

  /** A line of blanks, or one that starts with a number sign behind blanks, can be anywhere. */
  lemma CommentsDoNotCount(text: string, other: string, x: seq<string>, lead: string, v: string, y: seq<string>, w: int)
    requires (forall i :: 0 <= i < |lead| ==> IsBlank(lead[i])) && (v == "" || v[0] == '#')
    requires Lines(text) == x + ([lead + v] + y) && Lines(other) == x + y
    ensures LoadGateway(text) == LoadGateway(other) && LoadStage(text, w) == LoadStage(other, w)
  {
    CommentIsSeen(lead, v);
    var c := [lead + v];
    GatewayLinesAppend(GATEWAY_START, x, c + y);
    GatewayLinesAppend(GATEWAY_START, x, y);
    StageLinesAppend(StageStart(w), w, x, c + y);
    StageLinesAppend(StageStart(w), w, x, y);
    assert (c + y)[1..] == y && (c + y)[0] == lead + v;
    hide Trim, IsComment, Indent, Finish, GraphOk;
  }
}
