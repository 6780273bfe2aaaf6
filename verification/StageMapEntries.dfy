/** What both loaders read back from one printed entry of a stage map. */
module StageMapEntries {
  import opened Basics
  import opened Decimal
  import opened TextLines
  import opened ConfigText
  import opened PartitionGraph
  import opened StageMapLoaders
  import opened StageMap

  function WithField(n: Partition, keepsId: bool, k: Key, v: string): Partition {
    match k
    case PartitionId => if keepsId then n.(partitionId := v) else n
    case ServiceName => n.(serviceName := v)
    case PhysicalNode => n.(physicalNode := v)
    case PartitionFile => n.(partitionFile := v)
    case NativePartitionFile => n.(nativePartitionFile := v)
    case Backend => n.(backend := v)
    case NextStageUrl => n.(nextStageUrl := v)
    case _ => n
  }

  lemma ReadOne(e: Entry, keepsId: bool, line: string, rest: seq<string>)
    requires Trim(line) != "" && !IsComment(Trim(line))
    requires EntryLine(e, keepsId, Indent(line), Trim(line)).Some?
    ensures EntryLines(e, keepsId, [line] + rest)
         == EntryLines(EntryLine(e, keepsId, Indent(line), Trim(line)).value, keepsId, rest)
  {
    assert ([line] + rest)[1..] == rest;
  }

  lemma FieldIsKept(n: Partition, keepsId: bool, k: Key, t: string)
    requires forall j :: IsField(t, j) <==> j == k
    ensures PartitionField(n, keepsId, t) == WithField(n, keepsId, k, AfterColon(t))
  {
    hide IsField, AfterColon;
  }

  lemma ReadField(e: Entry, keepsId: bool, k: Key, text: string, rest: seq<string>)
    requires k != ComponentsOf
    ensures EntryLines(e, keepsId, [Field(2, k, text)] + rest)
         == EntryLines(Entry(false, !e.inComponents && e.inLayers, WithField(e.node, keepsId, k, Scalar(text))), keepsId, rest)
  {
    hide Trim, Indent, IsField, IsComment, AfterColon, Scalar, Field, IsDash, PartitionField, WithField, EntryLines, ComponentLine;
    var line := Field(2, k, text);
    FieldIsSeen(2, k, text);
    FieldIsKept(e.node, keepsId, k, Trim(line));
    ReadOne(e, keepsId, line, rest);
  }

  lemma ReadComponents(e: Entry, keepsId: bool, rest: seq<string>)
    ensures EntryLines(e, keepsId, [Field(2, ComponentsOf, "")] + rest)
         == EntryLines(e.(inComponents := true, inLayers := false), keepsId, rest)
  {
    hide Trim, Indent, IsField, IsComment, AfterColon, Scalar, Field, IsDash;
    FieldIsSeen(2, ComponentsOf, "");
    ReadOne(e, keepsId, Field(2, ComponentsOf, ""), rest);
  }

  function WithComponent(c: Components, k: Key, on: bool): Components {
    match k
    case Embedding => c.(embedding := on)
    case Norm => c.(norm := on)
    case LmHead => c.(lmHead := on)
    case _ => c
  }

  lemma ReadComponent(e: Entry, keepsId: bool, k: Key, on: bool, rest: seq<string>)
    requires e.inComponents && k in {Embedding, Norm, LmHead}
    ensures EntryLines(e, keepsId, [Field(4, k, Bool(on))] + rest)
         == EntryLines(e.(node := e.node.(components := WithComponent(e.node.components, k, on))), keepsId, rest)
  {
    hide Trim, Indent, IsField, IsComment, AfterColon, Scalar, Field, IsDash;
    FieldIsSeen(4, k, Bool(on));
    BoolIsRead(on);
    ReadOne(e, keepsId, Field(4, k, Bool(on)), rest);
  }

  lemma BoolIsRead(on: bool)
    ensures ParseBool(Scalar(Bool(on))) == on
  {
    var v := if on then "true" else "false";
    ScalarAfterBlank(v);
    PlainScalar(v);
    assert " " + v == Bool(on);
  }

  lemma ReadLayers(e: Entry, keepsId: bool, rest: seq<string>)
    requires e.inComponents
    ensures EntryLines(e, keepsId, [Field(4, Layers, "")] + rest) == EntryLines(e.(inLayers := true), keepsId, rest)
  {
    hide Trim, Indent, IsField, IsComment, AfterColon, Scalar, Field, IsDash;
    FieldIsSeen(4, Layers, "");
    ReadOne(e, keepsId, Field(4, Layers, ""), rest);
  }

  function WithLayers(e: Entry, layers: seq<int>): Entry {
    e.(node := e.node.(components := e.node.components.(layers := e.node.components.layers + layers)))
  }

  lemma ReadItem(e: Entry, keepsId: bool, layer: int, rest: seq<string>)
    requires e.inComponents && e.inLayers && 0 <= layer <= INT_MAX
    ensures EntryLines(e, keepsId, [Item(4, layer)] + rest) == EntryLines(WithLayers(e, [layer]), keepsId, rest)
  {
    hide Trim, Indent, IsField, IsComment, AfterColon, Scalar, IsDash, EntryLines, ToString, Stoi, PartitionField;
    ItemIsSeen(4, layer);
    StoiToString(layer);
    PrintedNumber(layer);
    ReadOne(e, keepsId, Item(4, layer), rest);
  }

  lemma {:induction false} ReadItems(e: Entry, keepsId: bool, layers: seq<int>, rest: seq<string>)
    requires e.inComponents && e.inLayers
    requires forall i :: 0 <= i < |layers| ==> 0 <= layers[i] <= INT_MAX
    ensures EntryLines(e, keepsId, Items(4, layers) + rest) == EntryLines(WithLayers(e, layers), keepsId, rest)
    decreases |layers|
  {
    hide EntryLines, Item;
    if layers == [] {
      assert Items(4, layers) + rest == rest && e.node.components.layers + layers == e.node.components.layers;
    } else {
      var more, next := Items(4, layers[1..]) + rest, WithLayers(e, [layers[0]]);
      assert Items(4, layers) + rest == [Item(4, layers[0])] + more;
      WithLayersTwice(e, layers);
      hide Items, WithLayers;
      ReadItem(e, keepsId, layers[0], more);
      ReadItems(next, keepsId, layers[1..], rest);
    }
  }

  lemma WithLayersTwice(e: Entry, layers: seq<int>)
    requires layers != []
    ensures WithLayers(WithLayers(e, [layers[0]]), layers[1..]) == WithLayers(e, layers)
    ensures WithLayers(e, [layers[0]]).inComponents == e.inComponents && WithLayers(e, [layers[0]]).inLayers == e.inLayers
  {
    assert e.node.components.layers + [layers[0]] + layers[1..] == e.node.components.layers + layers;
  }

  lemma ReadBlank(e: Entry, keepsId: bool)
    ensures EntryLines(e, keepsId, [""]) == Some(e)
  {
    assert [""][1..] == [];
  }

  function ReadComponentsOf(a: MapArgs, id: nat): Components
    requires Counts(a) && 1 <= id <= a.numStages
  {
    Components(id == 1, Share(a.numLayers, a.numStages, id - 1), id == a.numStages, id == a.numStages)
  }

  function NextUrl(a: MapArgs, id: nat): string {
    if id < a.numStages then UrlOf(a, id + 1) else ""
  }

  /** What a loader keeps of stage id's entry. */
  function Reading(a: MapArgs, id: nat, partitionId: string): Partition
    requires Counts(a) && 1 <= id <= a.numStages
  {
    Partition(id, partitionId,
      Scalar(ServiceOf(a, id)),
      Scalar(a.physicalNodes[id - 1]),
      Scalar(PtFile(a, id)),
      Scalar(GgufFile(a, id)),
      "llama", NextUrl(a, id), ReadComponentsOf(a, id))
  }

  lemma UrlIsPlain(a: MapArgs, id: nat)
    ensures Scalar(" " + UrlOf(a, id)) == UrlOf(a, id) != ""
  {
    hide Scalar, ServiceOf;
    var u := UrlOf(a, id);
    assert u[0] == 'h' && u[|u| - 1] == 'y' && |u| > 4;
    ScalarAfterBlank(u);
    PlainScalar(u);
  }

  lemma PartitionIdIsPlain(id: nat)
    ensures Scalar(" " + DefaultPartitionId(id)) == DefaultPartitionId(id) != ""
  {
    hide Scalar, ToString;
    var p := DefaultPartitionId(id);
    PrintedNumber(id);
    var d := ToString(id);
    assert p[0] == 'p' && p[|p| - 1] == d[|d| - 1] && |p| > 4;
    ScalarAfterBlank(p);
    PlainScalar(p);
  }

  lemma NextUrlIsRead(a: MapArgs, id: nat)
    ensures Scalar(" " + if id < a.numStages then UrlOf(a, id + 1) else "null") == NextUrl(a, id)
  {
    if id < a.numStages {
      UrlIsPlain(a, id + 1);
    } else {
      ScalarAfterBlank("null");
    }
  }

  lemma ShareInRange(a: MapArgs, i: nat)
    requires Counts(a) && i < a.numStages
    ensures var s := Share(a.numLayers, a.numStages, i); forall j :: 0 <= j < |s| ==> 0 <= s[j] < a.numLayers
  {
    StartBelow(a.numLayers, a.numStages, i + 1);
  }

  lemma StartBelow(n: nat, k: nat, i: nat)
    requires 0 < k && i <= k
    ensures Start(n, k, i) <= n
    decreases k - i
  {
    if i == k {
      LastStart(n, k);
    } else {
      NextStart(n, k, i);
      StartBelow(n, k, i + 1);
    }
  }

  lemma ReadClosing(a: MapArgs, id: nat, keepsId: bool, e: Entry)
    requires e.inComponents
    ensures EntryLines(e, keepsId, ClosingText(a, id))
         == Some(Entry(false, false, e.node.(nextStageUrl := NextUrl(a, id),
              components := e.node.components.(norm := id == a.numStages, lmHead := id == a.numStages))))
  {
    hide EntryLines, Field, Scalar, Bool;
    var last := id == a.numStages;
    var l3 := [""];
    var l2 := [Field(2, NextStageUrl, " " + if id < a.numStages then UrlOf(a, id + 1) else "null")] + l3;
    var l1 := [Field(4, LmHead, Bool(last))] + l2;
    ReadComponent(e, keepsId, Norm, last, l1);
    var e1 := e.(node := e.node.(components := e.node.components.(norm := last)));
    ReadComponent(e1, keepsId, LmHead, last, l2);
    var e2 := e.(node := e.node.(components := e.node.components.(norm := last, lmHead := last)));
    NextUrlIsRead(a, id);
    ReadField(e2, keepsId, NextStageUrl, " " + if id < a.numStages then UrlOf(a, id + 1) else "null", l3);
    ReadBlank(Entry(false, false, e2.node.(nextStageUrl := NextUrl(a, id))), keepsId);
  }

  lemma ReadComponentText(a: MapArgs, id: nat, keepsId: bool, e: Entry)
    requires ValidArgs(a) && 1 <= id <= a.numStages
    requires e.node.components.layers == []
    ensures EntryLines(e, keepsId, ComponentText(a, id))
         == Some(Entry(false, false, e.node.(nextStageUrl := NextUrl(a, id), components := ReadComponentsOf(a, id))))
  {
    hide EntryLines, Field, Bool, ClosingText, Share, Items;
    var layers := Share(a.numLayers, a.numStages, id - 1);
    ShareInRange(a, id - 1);
    var l4 := ClosingText(a, id);
    var l3 := Items(4, layers) + l4;
    var l2 := [Field(4, Layers, "")] + l3;
    var l1 := [Field(4, Embedding, Bool(id == 1))] + l2;
    ReadComponents(e, keepsId, l1);
    var e1 := e.(inComponents := true, inLayers := false);
    ReadComponent(e1, keepsId, Embedding, id == 1, l2);
    var e2 := e1.(node := e.node.(components := e.node.components.(embedding := id == 1)));
    ReadLayers(e2, keepsId, l3);
    var e3 := e2.(inLayers := true);
    ReadItems(e3, keepsId, layers, l4);
    assert [] + layers == layers;
    ReadClosing(a, id, keepsId, e3.(node := e3.node.(components := e3.node.components.(layers := layers))));
  }

  /** An entry's lines are read into exactly that entry. */
  lemma ReadEntry(a: MapArgs, id: nat, keepsId: bool, e: Entry)
    requires ValidArgs(a) && 1 <= id <= a.numStages
    requires !e.inComponents && !e.inLayers && e.node.stageId == id && e.node.components.layers == []
    ensures EntryLines(e, keepsId, EntryText(a, id))
         == Some(Entry(false, false, Reading(a, id, if keepsId then DefaultPartitionId(id) else e.node.partitionId)))
  {
    hide EntryLines, Field, Scalar, ComponentText, ReadComponentsOf, NextUrl;
    hide ServiceOf, PtFile, GgufFile, DefaultPartitionId;
    var l3 := FilesText(a, id);
    var l2 := [Field(2, PhysicalNode, " " + a.physicalNodes[id - 1])] + l3;
    var l1 := [Field(2, ServiceName, " " + ServiceOf(a, id))] + l2;
    PartitionIdIsPlain(id);
    ScalarAfterBlank(ServiceOf(a, id));
    ScalarAfterBlank(a.physicalNodes[id - 1]);
    ReadField(e, keepsId, PartitionId, " " + DefaultPartitionId(id), l1);
    var n := WithField(e.node, keepsId, PartitionId, DefaultPartitionId(id));
    ReadField(Entry(false, false, n), keepsId, ServiceName, " " + ServiceOf(a, id), l2);
    n := n.(serviceName := Scalar(ServiceOf(a, id)));
    ReadField(Entry(false, false, n), keepsId, PhysicalNode, " " + a.physicalNodes[id - 1], l3);
    n := n.(physicalNode := Scalar(a.physicalNodes[id - 1]));
    ReadFiles(a, id, keepsId, n);
  }

  lemma ReadFiles(a: MapArgs, id: nat, keepsId: bool, start: Partition)
    requires ValidArgs(a) && 1 <= id <= a.numStages && start.components.layers == []
    ensures EntryLines(Entry(false, false, start), keepsId, FilesText(a, id))
         == Some(Entry(false, false, start.(
              partitionFile := Scalar(PtFile(a, id)), nativePartitionFile := Scalar(GgufFile(a, id)),
              backend := "llama", nextStageUrl := NextUrl(a, id), components := ReadComponentsOf(a, id))))
  {
    hide EntryLines, Field, Scalar, ComponentText, ReadComponentsOf, NextUrl, PtFile, GgufFile;
    var l6 := ComponentText(a, id);
    var l5 := [Field(2, Backend, " " + "llama")] + l6;
    var l4 := [Field(2, NativePartitionFile, " " + GgufFile(a, id))] + l5;
    ScalarAfterBlank(PtFile(a, id));
    ScalarAfterBlank(GgufFile(a, id));
    ScalarAfterBlank("llama");
    PlainScalar("llama");
    var n := start;
    ReadField(Entry(false, false, n), keepsId, PartitionFile, " " + PtFile(a, id), l4);
    n := n.(partitionFile := Scalar(PtFile(a, id)));
    ReadField(Entry(false, false, n), keepsId, NativePartitionFile, " " + GgufFile(a, id), l5);
    n := n.(nativePartitionFile := Scalar(GgufFile(a, id)));
    ReadField(Entry(false, false, n), keepsId, Backend, " " + "llama", l6);
    n := n.(backend := "llama");
    ReadComponentText(a, id, keepsId, Entry(false, false, n));
  }

  lemma FieldInside(indent: nat, k: Key, text: string)
    requires indent > 0 && k != StageId
    ensures Inside(Field(indent, k, text))
  {
    hide Trim, Indent, IsField, IsComment, AfterColon, Scalar, Field;
    FieldIsSeen(indent, k, text);
  }

  ghost predicate AllInside(lines: seq<string>) {
    forall i :: 0 <= i < |lines| ==> Inside(lines[i])
  }

  lemma InsideCons(line: string, rest: seq<string>)
    requires Inside(line) && AllInside(rest)
    ensures AllInside([line] + rest)
  {}

  lemma InsideAppend(a: seq<string>, b: seq<string>)
    requires AllInside(a) && AllInside(b)
    ensures AllInside(a + b)
  {}

  lemma {:induction false} ItemsInside(layers: seq<int>)
    requires forall i :: 0 <= i < |layers| ==> layers[i] >= 0
    ensures AllInside(Items(4, layers))
  {
    if layers == [] {
    } else {
      hide Trim, Indent, IsField, IsComment, ToString;
      ItemIsSeen(4, layers[0]);
      ItemsInside(layers[1..]);
      InsideCons(Item(4, layers[0]), Items(4, layers[1..]));
    }
  }

  lemma FieldThen(indent: nat, k: Key, text: string, rest: seq<string>)
    requires indent > 0 && k != StageId && AllInside(rest)
    ensures AllInside([Field(indent, k, text)] + rest)
  {
    FieldInside(indent, k, text);
    InsideCons(Field(indent, k, text), rest);
  }

  /** An entry's lines, but for the first, stay inside the entry. */
  lemma EntryInside(a: MapArgs, id: nat)
    requires Counts(a) && 1 <= id <= a.numStages
    ensures AllInside(EntryText(a, id))
  {
    hide AllInside, Field, FilesText;
    FilesInside(a, id);
    var l2 := FilesText(a, id);
    var l1 := [Field(2, PhysicalNode, " " + a.physicalNodes[id - 1])] + l2;
    FieldThen(2, PhysicalNode, " " + a.physicalNodes[id - 1], l2);
    FieldThen(2, ServiceName, " " + ServiceOf(a, id), l1);
    FieldThen(2, PartitionId, " " + DefaultPartitionId(id), [Field(2, ServiceName, " " + ServiceOf(a, id))] + l1);
  }

  lemma FilesInside(a: MapArgs, id: nat)
    requires Counts(a) && 1 <= id <= a.numStages
    ensures AllInside(FilesText(a, id))
  {
    hide AllInside, Field, ComponentText;
    ComponentsInside(a, id);
    var l2 := ComponentText(a, id);
    var l1 := [Field(2, Backend, " " + "llama")] + l2;
    FieldThen(2, Backend, " " + "llama", l2);
    FieldThen(2, NativePartitionFile, " " + GgufFile(a, id), l1);
    FieldThen(2, PartitionFile, " " + PtFile(a, id), [Field(2, NativePartitionFile, " " + GgufFile(a, id))] + l1);
  }

  lemma ComponentsInside(a: MapArgs, id: nat)
    requires Counts(a) && 1 <= id <= a.numStages
    ensures AllInside(ComponentText(a, id))
  {
    hide AllInside, Field, Items, Share, ClosingText;
    var layers := Share(a.numLayers, a.numStages, id - 1);
    ShareInRange(a, id - 1);
    ItemsInside(layers);
    ClosingInside(a, id);
    InsideAppend(Items(4, layers), ClosingText(a, id));
    var l2 := Items(4, layers) + ClosingText(a, id);
    FieldThen(4, Layers, "", l2);
    FieldThen(4, Embedding, Bool(id == 1), [Field(4, Layers, "")] + l2);
    FieldThen(2, ComponentsOf, "", [Field(4, Embedding, Bool(id == 1))] + ([Field(4, Layers, "")] + l2));
  }

  lemma ClosingInside(a: MapArgs, id: nat)
    ensures AllInside(ClosingText(a, id))
  {
    assert AllInside([""]);
    hide AllInside, Field;
    var last := id == a.numStages;
    var next := " " + if id < a.numStages then UrlOf(a, id + 1) else "null";
    FieldThen(2, NextStageUrl, next, [""]);
    FieldThen(4, LmHead, Bool(last), [Field(2, NextStageUrl, next)] + [""]);
    FieldThen(4, Norm, Bool(last), [Field(4, LmHead, Bool(last))] + ([Field(2, NextStageUrl, next)] + [""]));
  }
}
