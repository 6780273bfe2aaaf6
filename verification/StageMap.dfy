/** The stage map that the model controller prints: how it splits the layers, the text, and
    what both loaders read back from it. */
module StageMap {
  import opened Basics
  import opened Decimal
  import opened TextLines
  import opened ConfigText
  import opened PartitionGraph
  import opened StageMapLoaders

  datatype SplitError = NoLayers | NoStages | MoreStagesThanLayers

  function Range(lo: nat, hi: nat): seq<int>
    requires lo <= hi
  {
    seq(hi - lo, i => lo + i)
  }

  /** Where share i of n layers over k stages starts: the first n % k shares are one larger. */
  function Start(n: nat, k: nat, i: nat): nat
    requires 0 < k
  {
    i * (n / k) + if i < n % k then i else n % k
  }

  lemma NextStart(n: nat, k: nat, i: nat)
    requires 0 < k
    ensures Start(n, k, i + 1) == Start(n, k, i) + n / k + (if i < n % k then 1 else 0)
  {
    assert (i + 1) * (n / k) == i * (n / k) + n / k;
  }

  lemma LastStart(n: nat, k: nat)
    requires 0 < k
    ensures Start(n, k, k) == n && Start(n, k, 0) == 0
  {
    assert k * (n / k) + n % k == n;
  }

  function Share(n: nat, k: nat, i: nat): seq<int>
    requires 0 < k
  {
    NextStart(n, k, i);
    Range(Start(n, k, i), Start(n, k, i + 1))
  }

  /** Contiguous non-empty shares that differ by at most one layer and together are the
      layers 0 .. n - 1 in order. */
  ghost predicate FairSplit(shares: seq<seq<int>>, n: nat, k: nat) {
    && |shares| == k
    && Joined(shares) == FirstLayers(n)
    && (forall i :: 0 <= i < k ==> shares[i] != [])
    && (forall i, j :: 0 <= i < j < k ==> |shares[j]| <= |shares[i]| <= |shares[j]| + 1)
  }

  function Joined(shares: seq<seq<int>>): seq<int> {
    if shares == [] then [] else Joined(shares[..|shares| - 1]) + shares[|shares| - 1]
  }

  method SplitLayers(numLayers: int, numStages: int) returns (r: Result<seq<seq<int>>, SplitError>)
    ensures r.Ok? <==> 1 <= numStages <= numLayers
    ensures r.Ok? ==> FairSplit(r.value, numLayers, numStages)
    ensures r.Ok? ==> forall i :: 0 <= i < numStages ==> r.value[i] == Share(numLayers, numStages, i)
    ensures r.Err? ==> r.error == if numLayers <= 0 then NoLayers else if numStages <= 0 then NoStages
                                  else MoreStagesThanLayers
  {
    if numLayers <= 0 { return Err(NoLayers); }
    if numStages <= 0 { return Err(NoStages); }
    if numStages > numLayers { return Err(MoreStagesThanLayers); }
    hide Start;
    var base := numLayers / numStages;
    var remainder := numLayers % numStages;
    assert base >= 1 by { assert numStages * base + remainder == numLayers; }
    var result: seq<seq<int>> := [];
    var cursor := 0;
    LastStart(numLayers, numStages);
    for index := 0 to numStages
      invariant |result| == index && cursor == Start(numLayers, numStages, index)
      invariant Joined(result) == FirstLayers(cursor)
      invariant forall i :: 0 <= i < index ==> result[i] == Share(numLayers, numStages, i)
      invariant forall i :: 0 <= i < index ==> |result[i]| == base + (if i < remainder then 1 else 0)
    {
      NextStart(numLayers, numStages, index);
      var size := base + (if index < remainder then 1 else 0);
      var layers: seq<int> := [];
      for layer := cursor to cursor + size
        invariant layers == Range(cursor, layer)
      {
        layers := layers + [layer];
      }
      assert (result + [layers])[..index] == result;
      assert FirstLayers(cursor) + Range(cursor, cursor + size) == FirstLayers(cursor + size);
      cursor := cursor + size;
      result := result + [layers];
    }
    return Ok(result);
  }

  datatype MapArgs = MapArgs(
    modelName: string, modelSlug: string, ggufFile: string, numLayers: int, numStages: int,
    gatewayService: string, stagePrefix: string, physicalNodes: seq<string>, containerRoot: string)

  /** What the controller passes: 32-bit counts, one node per stage, and texts of one line. */
  predicate ValidArgs(a: MapArgs) {
    && Counts(a) && a.numLayers <= INT_MAX
    && OneLine(a.modelName) && OneLine(a.modelSlug) && OneLine(a.ggufFile)
    && OneLine(a.gatewayService) && OneLine(a.stagePrefix) && OneLine(a.containerRoot)
    && forall i :: 0 <= i < a.numStages ==> OneLine(a.physicalNodes[i])
  }

  predicate Counts(a: MapArgs) {
    1 <= a.numStages <= a.numLayers && |a.physicalNodes| == a.numStages
  }

  function StripTrailingSlashes(value: string): string {
    if |value| > 1 && value[|value| - 1] == '/' then StripTrailingSlashes(value[..|value| - 1]) else value
  }

  function ModelDir(a: MapArgs): string {
    StripTrailingSlashes(a.containerRoot) + "/" + a.modelSlug + "/"
  }

  function ServiceOf(a: MapArgs, id: nat): string { a.stagePrefix + "-" + ToString(id) }

  function UrlOf(a: MapArgs, id: nat): string {
    "http://" + ServiceOf(a, id) + ":8000/forward-binary"
  }

  function PtFile(a: MapArgs, id: nat): string { ModelDir(a) + "stage_" + ToString(id) + ".pt" }

  function GgufFile(a: MapArgs, id: nat): string { ModelDir(a) + "partition-" + ToString(id) + ".dli.gguf" }

  function Bool(b: bool): string { if b then " true" else " false" }

  function Items(indent: nat, layers: seq<int>): seq<string> {
    if layers == [] then [] else [Item(indent, layers[0])] + Items(indent, layers[1..])
  }

  function HeaderLines(a: MapArgs): seq<string> {
    [Field(0, ModelName, " " + a.modelName)] +
    ([Field(0, ModelSlug, " " + a.modelSlug)] +
    ([Field(0, ModelPath, " " + (ModelDir(a) + a.ggufFile))] +
    ([Field(0, NumLayers, " " + ToString(a.numLayers))] +
    ([""] +
    GatewayHeader(a)))))
  }

  function GatewayHeader(a: MapArgs): seq<string> {
    [Field(0, InferenceGateway, "")] +
    ([Field(2, ServiceName, " " + a.gatewayService)] +
    ([Field(2, Port, " " + ToString(8000))] +
    ([Field(2, FirstStageUrl, " " + UrlOf(a, 1))] +
    ([""] +
    [Field(0, InferenceStages, "")]))))
  }

  function EntryText(a: MapArgs, id: nat): seq<string>
    requires Counts(a) && 1 <= id <= a.numStages
  {
    [Field(2, PartitionId, " " + DefaultPartitionId(id))] +
    ([Field(2, ServiceName, " " + ServiceOf(a, id))] +
    ([Field(2, PhysicalNode, " " + a.physicalNodes[id - 1])] +
    FilesText(a, id)))
  }

  function FilesText(a: MapArgs, id: nat): seq<string>
    requires Counts(a) && 1 <= id <= a.numStages
  {
    [Field(2, PartitionFile, " " + PtFile(a, id))] +
    ([Field(2, NativePartitionFile, " " + GgufFile(a, id))] +
    ([Field(2, Backend, " " + "llama")] +
    ComponentText(a, id)))
  }

  function ComponentText(a: MapArgs, id: nat): seq<string>
    requires Counts(a) && 1 <= id <= a.numStages
  {
    [Field(2, ComponentsOf, "")] +
    ([Field(4, Embedding, Bool(id == 1))] +
    ([Field(4, Layers, "")] +
    (Items(4, Share(a.numLayers, a.numStages, id - 1)) + ClosingText(a, id))))
  }

  function ClosingText(a: MapArgs, id: nat): seq<string> {
    [Field(4, Norm, Bool(id == a.numStages))] +
    ([Field(4, LmHead, Bool(id == a.numStages))] +
    ([Field(2, NextStageUrl, " " + if id < a.numStages then UrlOf(a, id + 1) else "null")] +
    [""]))
  }

  function StageBlock(a: MapArgs, id: nat): seq<string>
    requires Counts(a) && 1 <= id <= a.numStages
  {
    [Field(0, StageId, " " + ToString(id))] + EntryText(a, id)
  }

  function StageBlocks(a: MapArgs, count: nat): seq<string>
    requires Counts(a) && count <= a.numStages
  {
    if count == 0 then [] else StageBlocks(a, count - 1) + StageBlock(a, count)
  }

  function RouteLines(a: MapArgs, count: nat): seq<string> {
    if count == 0 then []
    else
      RouteLines(a, count - 1) +
      ["    \"" + ToString(count) + "\":", "    - " + UrlOf(a, count + 1)]
  }

  const TOPOLOGY_HEAD: seq<string> := ["  probe_timeout_seconds: 0.25", "  route_candidates:"]

  function TailLines(a: MapArgs): seq<string>
    requires Counts(a)
  {
    TOPOLOGY_HEAD + RouteLines(a, a.numStages - 1)
  }

  function MapLines(a: MapArgs): seq<string>
    requires Counts(a)
  {
    HeaderLines(a) + StageBlocks(a, a.numStages) + ([Field(0, Topology, "")] + TailLines(a))
  }

  lemma MapParts(a: MapArgs)
    requires Counts(a)
    ensures MapLines(a) == HeaderLines(a) + StageBlocks(a, a.numStages) + ([Field(0, Topology, "")] + TailLines(a))
  {}

  function Item(indent: nat, layer: int): string {
    Spaces(indent) + ("- " + ToString(layer))
  }

  lemma {:induction false} ItemsSnoc(indent: nat, layers: seq<int>, layer: int)
    ensures Items(indent, layers + [layer]) == Items(indent, layers) + [Item(indent, layer)]
  {
    hide Item;
    if layers == [] {
      assert [] + [layer] == [layer] && [layer][1..] == [];
    } else {
      var rest := layers[1..];
      assert (layers + [layer])[1..] == rest + [layer];
      ItemsSnoc(indent, rest, layer);
      assert Items(indent, layers) == [Item(indent, layers[0])] + Items(indent, rest);
      assert Items(indent, layers + [layer]) == [Item(indent, layers[0])] + Items(indent, rest + [layer]);
      hide Items;
      var first, last := [Item(indent, layers[0])], [Item(indent, layer)];
      assert first + (Items(indent, rest) + last) == first + Items(indent, rest) + last;
    }
  }

  lemma RenderOne(line: string)
    ensures Render([line]) == line + "\n"
  {
    assert [line][..0] == [] && "" + line == line;
  }

  /** A list, one item a line, without the newline of the last. */
  method YamlIntList(values: seq<int>, indent: nat) returns (text: string)
    ensures values != [] ==> text + "\n" == Render(Items(indent, values))
    ensures values == [] ==> text == ""
  {
    text := "";
    for i := 0 to |values|
      invariant text == Render(Items(indent, values[..i]))
      invariant i > 0 ==> text != "" && text[|text| - 1] == '\n'
    {
      hide Render, Items, Item;
      var line := Item(indent, values[i]);
      TakeOneMore(values, i);
      ItemsSnoc(indent, values[..i], values[i]);
      RenderAppend(Items(indent, values[..i]), [line]);
      RenderOne(line);
      text := text + (line + "\n");
    }
    assert values[..|values|] == values;
    if text != "" && text[|text| - 1] == '\n' {
      text := text[..|text| - 1];
    }
  }

  function BlockHead(a: MapArgs, id: nat): seq<string>
    requires Counts(a) && 1 <= id <= a.numStages
  {
    [Field(0, StageId, " " + ToString(id)),
     Field(2, PartitionId, " " + DefaultPartitionId(id)),
     Field(2, ServiceName, " " + ServiceOf(a, id)),
     Field(2, PhysicalNode, " " + a.physicalNodes[id - 1]),
     Field(2, PartitionFile, " " + PtFile(a, id)),
     Field(2, NativePartitionFile, " " + GgufFile(a, id)),
     Field(2, Backend, " " + "llama"),
     Field(2, ComponentsOf, ""),
     Field(4, Embedding, Bool(id == 1)),
     Field(4, Layers, "")]
  }

  lemma BlockParts(a: MapArgs, id: nat)
    requires Counts(a) && 1 <= id <= a.numStages
    ensures StageBlock(a, id)
         == BlockHead(a, id) + (Items(4, Share(a.numLayers, a.numStages, id - 1)) + ClosingText(a, id))
  {
    hide Field, Items, Share, ClosingText, ServiceOf, PtFile, GgufFile, DefaultPartitionId, Bool, ToString;
  }

  lemma BlocksSnoc(a: MapArgs, id: nat)
    requires Counts(a) && 1 <= id <= a.numStages
    ensures StageBlocks(a, id) == StageBlocks(a, id - 1) + StageBlock(a, id)
  {
    hide StageBlock;
  }

  lemma RenderBlock(a: MapArgs, id: nat, items: string)
    requires Counts(a) && 1 <= id <= a.numStages
    requires items + "\n" == Render(Items(4, Share(a.numLayers, a.numStages, id - 1)))
    ensures Render(StageBlocks(a, id - 1)) + Render(BlockHead(a, id)) + items + "\n" + Render(ClosingText(a, id))
         == Render(StageBlocks(a, id))
  {
    var list := Items(4, Share(a.numLayers, a.numStages, id - 1));
    hide *;
    BlocksSnoc(a, id);
    BlockParts(a, id);
    RenderAppend(StageBlocks(a, id - 1), StageBlock(a, id));
    RenderAppend(BlockHead(a, id), list + ClosingText(a, id));
    RenderAppend(list, ClosingText(a, id));
    Regroup(Render(StageBlocks(a, id - 1)), Render(BlockHead(a, id)), items, "\n", Render(ClosingText(a, id)));
  }

  lemma Regroup(x: string, h: string, i: string, n: string, c: string)
    ensures x + h + i + n + c == x + (h + ((i + n) + c))
  {
    assert h + i + n + c == h + ((i + n) + c);
    assert x + h + i + n + c == x + (h + i + n + c);
  }

  /** The loop over the stages. */
  method StagesText(a: MapArgs, ranges: seq<seq<int>>) returns (text: string)
    requires Counts(a) && |ranges| == a.numStages
    requires forall i :: 0 <= i < a.numStages ==> ranges[i] == Share(a.numLayers, a.numStages, i) != []
    ensures text == Render(StageBlocks(a, a.numStages))
  {
    hide Render, StageBlocks, BlockHead, ClosingText, Items, Share;
    text := "";
    NothingRendered(a);
    for index := 0 to a.numStages
      invariant text == Render(StageBlocks(a, index))
    {
      ShareIsNatural(a.numLayers, a.numStages, index);
      var items := YamlIntList(ranges[index], 4);
      RenderBlock(a, index + 1, items);
      text := text + Render(BlockHead(a, index + 1)) + items + "\n" + Render(ClosingText(a, index + 1));
    }
  }

  /** The loop over the routes. */
  method RoutesText(a: MapArgs) returns (text: string)
    requires Counts(a)
    ensures text == Render(RouteLines(a, a.numStages - 1))
  {
    hide Render, RouteLines, UrlOf, ToString;
    text := "";
    NothingRendered(a);
    for count := 0 to a.numStages - 1
      invariant text == Render(RouteLines(a, count))
    {
      var pair := ["    \"" + ToString(count + 1) + "\":", "    - " + UrlOf(a, count + 2)];
      RouteSnoc(a, count, pair);
      text := text + Render(pair);
    }
  }

  /** The controller prints exactly the lines of the map, for exactly the splits that exist. */
  method GenerateStageMap(a: MapArgs) returns (r: Result<string, SplitError>)
    requires a.numStages >= 0 ==> |a.physicalNodes| == a.numStages
    ensures r.Ok? <==> Counts(a)
    ensures r.Ok? ==> r.value == Render(MapLines(a))
  {
    var split := SplitLayers(a.numLayers, a.numStages);
    if split.Err? { return Err(split.error); }
    hide Render, HeaderLines, StageBlocks, RouteLines, Field, TOPOLOGY_HEAD, MapLines, Share;
    var blocks := StagesText(a, split.value);
    var routes := RoutesText(a);
    RenderMap(a);
    return Ok(Render(HeaderLines(a)) + blocks + (Render([Field(0, Topology, "")] + TOPOLOGY_HEAD) + routes));
  }

  lemma ShareIsNatural(n: nat, k: nat, i: nat)
    requires 0 < k
    ensures forall j :: 0 <= j < |Share(n, k, i)| ==> Share(n, k, i)[j] >= 0
  {}

  lemma NothingRendered(a: MapArgs)
    requires Counts(a)
    ensures Render(StageBlocks(a, 0)) == "" == Render(RouteLines(a, 0))
  {}

  lemma RouteSnoc(a: MapArgs, count: nat, pair: seq<string>)
    requires pair == ["    \"" + ToString(count + 1) + "\":", "    - " + UrlOf(a, count + 2)]
    ensures Render(RouteLines(a, count + 1)) == Render(RouteLines(a, count)) + Render(pair)
  {
    assert RouteLines(a, count + 1) == RouteLines(a, count) + pair;
    hide RouteLines;
    RenderAppend(RouteLines(a, count), pair);
  }

  lemma RenderMap(a: MapArgs)
    requires Counts(a)
    ensures Render(MapLines(a))
         == Render(HeaderLines(a)) + Render(StageBlocks(a, a.numStages))
          + (Render([Field(0, Topology, "")] + TOPOLOGY_HEAD) + Render(RouteLines(a, a.numStages - 1)))
  {
    hide Render, HeaderLines, StageBlocks, RouteLines, Field, TOPOLOGY_HEAD;
    var h, b, r := HeaderLines(a), StageBlocks(a, a.numStages), RouteLines(a, a.numStages - 1);
    var t := [Field(0, Topology, "")];
    RenderAppend(h, b);
    assert t + (TOPOLOGY_HEAD + r) == (t + TOPOLOGY_HEAD) + r;
    RenderAppend(t + TOPOLOGY_HEAD, r);
    RenderAppend(h + b, (t + TOPOLOGY_HEAD) + r);
  }
}
