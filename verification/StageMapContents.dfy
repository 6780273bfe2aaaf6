/** The printed stage map in plain words: its lines, and what the loaders read for each stage,
    with every key and every name written out. */
module StageMapContents {
  import opened Basics
  import opened Decimal
  import opened TextLines
  import opened ConfigText
  import opened PartitionGraph
  import opened StageMapLoaders
  import opened StageMap
  import opened StageMapEntries
  import opened StageMapRoundTrip
  import opened StageMapAgreement

  // ----- The model root -----

  /** The root that is left of a path when the slashes at its end are gone; a path of slashes
      alone keeps one. */
  ghost predicate RootOf(path: string, root: string) {
    && root <= path
    && (forall i :: |root| <= i < |path| ==> path[i] == '/')
    && if path == "" then root == "" else root == "/" || (root != "" && root[|root| - 1] != '/')
  }

  lemma {:induction false} StripIsRoot(path: string, root: string)
    ensures StripTrailingSlashes(path) == root <==> RootOf(path, root)
    decreases |path|
  {
    if |path| > 1 && path[|path| - 1] == '/' {
      var shorter := path[..|path| - 1];
      StripIsRoot(shorter, root);
      assert root <= path && root != path ==> root <= shorter;
      assert root == path ==> |root| > 1 && root[|root| - 1] == '/';
    } else {
      assert RootOf(path, path);
      assert root <= path && root != path && (forall i :: |root| <= i < |path| ==> path[i] == '/')
        ==> path[|path| - 1] == '/';
    }
  }

  // ----- What is read -----

  /** Names that the line-based readers give back as they are. */
  predicate CleanNames(a: MapArgs) {
    && StartsClean(a.stagePrefix) && StartsClean(a.containerRoot)
    && forall i :: 0 <= i < |a.physicalNodes| ==> Plain(a.physicalNodes[i])
  }

  /** The layers first, first + 1, .. */
  function Consecutive(first: int, count: nat): seq<int> {
    seq(count, i => first + i)
  }

  /** The layers of stage id when n layers go to k stages: the first n % k stages have one more. */
  function LayersOf(n: nat, k: nat, id: nat): seq<int>
    requires 0 < k
  {
    var small: nat := n / k;
    if id <= n % k then Consecutive((id - 1) * (small + 1), small + 1)
    else Consecutive((id - 1) * small + n % k, small)
  }

  /** Stage id of a map with n layers over k stages, in directory dir. */
  ghost predicate IsStage(p: Partition, a: MapArgs, dir: string, id: nat)
    requires Counts(a) && 1 <= id <= a.numStages
  {
    && p.stageId == id
    && p.serviceName == a.stagePrefix + "-" + ToString(id)
    && p.physicalNode == a.physicalNodes[id - 1]
    && p.partitionFile == dir + "/stage_" + ToString(id) + ".pt"
    && p.nativePartitionFile == dir + "/partition-" + ToString(id) + ".dli.gguf"
    && p.backend == "llama"
    && p.nextStageUrl
       == (if id == a.numStages then "" else "http://" + a.stagePrefix + "-" + ToString(id + 1) + ":8000/forward-binary")
    && p.components.embedding == (id == 1)
    && p.components.norm == p.components.lmHead == (id == a.numStages)
    && p.components.layers == LayersOf(a.numLayers, a.numStages, id)
  }

  lemma FilesSpelled(a: MapArgs, root: string, id: nat)
    requires RootOf(a.containerRoot, root)
    ensures var dir := root + "/" + a.modelSlug;
      && PtFile(a, id) == dir + "/stage_" + ToString(id) + ".pt"
      && GgufFile(a, id) == dir + "/partition-" + ToString(id) + ".dli.gguf"
  {
    StripIsRoot(a.containerRoot, root);
    hide ToString, StripTrailingSlashes, RootOf;
    var head := root + "/" + a.modelSlug;
    assert ModelDir(a) == head + "/";
    assert head + "/" + "stage_" == head + "/stage_";
    assert head + "/" + "partition-" == head + "/partition-";
  }

  lemma UrlSpelled(a: MapArgs, id: nat)
    ensures UrlOf(a, id) == "http://" + a.stagePrefix + "-" + ToString(id) + ":8000/forward-binary"
  {
    hide ToString;
    assert "http://" + (a.stagePrefix + "-" + ToString(id)) == "http://" + a.stagePrefix + "-" + ToString(id);
  }

  lemma ShareSpelled(n: nat, k: nat, id: nat)
    requires 0 < k && 1 <= id
    ensures Share(n, k, id - 1) == LayersOf(n, k, id)
  {
    NextStart(n, k, id - 1);
    assert (id - 1) * (n / k + 1) == (id - 1) * (n / k) + (id - 1);
  }

  lemma PrintedIsStage(a: MapArgs, root: string, id: nat, partitionId: string)
    requires Counts(a) && 1 <= id <= a.numStages && RootOf(a.containerRoot, root)
    ensures IsStage(Printed(a, id, partitionId), a, root + "/" + a.modelSlug, id)
  {
    FilesSpelled(a, root, id);
    UrlSpelled(a, id + 1);
    ShareSpelled(a.numLayers, a.numStages, id);
    hide ToString, RootOf, PtFile, GgufFile, UrlOf, Share, LayersOf;
  }

  lemma ReadingIsStage(a: MapArgs, root: string, id: nat, partitionId: string)
    requires Counts(a) && CleanNames(a) && RootOf(a.containerRoot, root) && 1 <= id <= a.numStages
    ensures IsStage(Reading(a, id, partitionId), a, root + "/" + a.modelSlug, id)
  {
    assert StartsClean(a.stagePrefix) && StartsClean(a.containerRoot) && Plain(a.physicalNodes[id - 1]);
    hide IsStage, Reading, Printed, Plain, StartsClean, RootOf;
    NamesAreKept(a, id, partitionId);
    PrintedIsStage(a, root, id, partitionId);
  }

  /** What the gateway and the stage itself read for stage id of a printed map: the names,
      the files, the layers and the next address, all spelled out. */
  lemma StageIsRead(a: MapArgs, root: string, id: nat)
    requires ValidArgs(a) && CleanNames(a) && RootOf(a.containerRoot, root) && 1 <= id <= a.numStages
    ensures var text, dir := Render(MapLines(a)), root + "/" + a.modelSlug;
      var gateway, stage := LoadGateway(text), LoadStage(text, id);
      && gateway.Ok? && |gateway.value.partitions| == a.numStages && stage.Ok?
      && var p := gateway.value.partitions[id - 1];
      && IsStage(p, a, dir, id) && p.partitionId == "partition-" + ToString(id)
      && IsStage(stage.value, a, dir, id)
  {
    var named := DefaultPartitionId(id);
    assert Expected(a, a.numStages)[id - 1] == Reading(a, id, named);
    assert Reading(a, id, named).partitionId == "partition-" + ToString(id);
    ReadingIsStage(a, root, id, "");
    ReadingIsStage(a, root, id, named);
    assert ExpectedConfig(a, a.numStages).partitions == Expected(a, a.numStages);
    assert |Expected(a, a.numStages)| == a.numStages;
    hide *;
    GatewayRoundTrip(a);
    StageRoundTrip(a, id);
  }

  /** What the gateway reads about itself. */
  lemma GatewayIsRead(a: MapArgs, root: string)
    requires ValidArgs(a) && RootOf(a.containerRoot, root)
    requires Plain(a.gatewayService) && Plain(a.modelName) && Plain(root + "/" + a.modelSlug + "/" + a.ggufFile)
    ensures var r := LoadGateway(Render(MapLines(a)));
      && r.Ok?
      && r.value.serviceName == a.gatewayService && r.value.port == 8000
      && r.value.modelName == a.modelName && r.value.modelPath == root + "/" + a.modelSlug + "/" + a.ggufFile
      && r.value.numLayers == a.numLayers
      && r.value.firstStageUrl == "http://" + a.stagePrefix + "-" + ToString(1) + ":8000/forward-binary"
  {
    PlainScalar(a.gatewayService);
    PlainScalar(a.modelName);
    PlainScalar(root + "/" + a.modelSlug + "/" + a.ggufFile);
    UrlSpelled(a, 1);
    StripIsRoot(a.containerRoot, root);
    assert ModelDir(a) == root + "/" + a.modelSlug + "/";
    hide LoadGateway, MapLines, Scalar, Plain, UrlOf, ToString, RootOf, StripTrailingSlashes, ValidArgs;
    GatewayRoundTrip(a);
  }

  // ----- The printed lines -----

  /** A key and its value, or a key alone, behind some blanks. */
  function Says(blanks: string, name: string, value: string): string {
    blanks + (name + ": " + value)
  }

  function Opens(blanks: string, name: string): string {
    blanks + (name + ":")
  }

  function HeaderOf(a: MapArgs, root: string): seq<string> {
    [Says("", "model_name", a.modelName),
     Says("", "model_slug", a.modelSlug),
     Says("", "model_path", root + "/" + a.modelSlug + "/" + a.ggufFile),
     Says("", "num_layers", ToString(a.numLayers)),
     ""] + GatewayOf(a)
  }

  function GatewayOf(a: MapArgs): seq<string> {
    [Opens("", "inference_gateway"),
     Says("  ", "service_name", a.gatewayService),
     Says("  ", "port", "8000"),
     Says("  ", "first_stage_url", "http://" + a.stagePrefix + "-" + ToString(1) + ":8000/forward-binary"),
     "",
     Opens("", "inference_stages")]
  }

  function StageHeadOf(a: MapArgs, dir: string, id: nat): seq<string>
    requires Counts(a) && 1 <= id <= a.numStages
  {
    [Says("", "- stage_id", ToString(id)),
     Says("  ", "partition_id", "partition-" + ToString(id)),
     Says("  ", "service_name", a.stagePrefix + "-" + ToString(id)),
     Says("  ", "physical_node", a.physicalNodes[id - 1]),
     Says("  ", "partition_file", dir + "/stage_" + ToString(id) + ".pt"),
     Says("  ", "native_partition_file", dir + "/partition-" + ToString(id) + ".dli.gguf"),
     Says("  ", "backend", "llama"),
     Opens("  ", "components"),
     Says("    ", "embedding", if id == 1 then "true" else "false"),
     Opens("    ", "layers")]
  }

  function ItemsOf(layers: seq<int>): seq<string> {
    seq(|layers|, i requires 0 <= i < |layers| => "    - " + ToString(layers[i]))
  }

  function StageTailOf(a: MapArgs, id: nat): seq<string> {
    [Says("    ", "norm", if id == a.numStages then "true" else "false"),
     Says("    ", "lm_head", if id == a.numStages then "true" else "false"),
     Says("  ", "next_stage_url",
          if id < a.numStages then "http://" + a.stagePrefix + "-" + ToString(id + 1) + ":8000/forward-binary" else "null"),
     ""]
  }

  function StagesOf(a: MapArgs, dir: string, count: nat): seq<string>
    requires Counts(a) && count <= a.numStages
  {
    if count == 0 then []
    else
      var items := ItemsOf(LayersOf(a.numLayers, a.numStages, count));
      StagesOf(a, dir, count - 1) + (StageHeadOf(a, dir, count) + (items + StageTailOf(a, count)))
  }

  function RoutesOf(a: MapArgs, count: nat): seq<string> {
    if count == 0 then []
    else
      var url := "http://" + a.stagePrefix + "-" + ToString(count + 1) + ":8000/forward-binary";
      RoutesOf(a, count - 1) + ["    \"" + ToString(count) + "\":", "    - " + url]
  }

  lemma FieldSays(indent: nat, k: Key, value: string)
    ensures Field(indent, k, " " + value) == Says(Spaces(indent), Name(k), value)
    ensures Field(indent, k, "") == Opens(Spaces(indent), Name(k))
  {
    hide Name, Spaces;
    assert Name(k) + ":" + (" " + value) == Name(k) + ": " + value;
    assert Name(k) + ":" + "" == Name(k) + ":";
  }

  lemma NamesSpelled()
    ensures Name(ModelName) == "model_name" && Name(ModelSlug) == "model_slug" && Name(ModelPath) == "model_path"
    ensures Name(NumLayers) == "num_layers" && Name(InferenceGateway) == "inference_gateway" && Name(ServiceName) == "service_name"
    ensures Name(Port) == "port" && Name(FirstStageUrl) == "first_stage_url" && Name(InferenceStages) == "inference_stages"
    ensures Name(StageId) == "- stage_id" && Name(PartitionId) == "partition_id" && Name(PhysicalNode) == "physical_node"
    ensures Name(PartitionFile) == "partition_file" && Name(NativePartitionFile) == "native_partition_file" && Name(Backend) == "backend"
    ensures Name(ComponentsOf) == "components" && Name(Embedding) == "embedding" && Name(Layers) == "layers"
    ensures Name(Norm) == "norm" && Name(LmHead) == "lm_head" && Name(NextStageUrl) == "next_stage_url"
    ensures Name(Topology) == "topology"
  {}

  lemma BlanksSpelled()
    ensures Spaces(0) == "" && Spaces(2) == "  " && Spaces(4) == "    "
  {
    assert Spaces(1) == " " && Spaces(3) == "   ";
  }

  lemma HeaderIs(a: MapArgs, root: string)
    requires RootOf(a.containerRoot, root)
    ensures HeaderLines(a) == HeaderOf(a, root)
  {
    StripIsRoot(a.containerRoot, root);
    BlanksSpelled();
    NamesSpelled();
    hide Name, Spaces, Field, Says, Opens, ToString, RootOf, StripTrailingSlashes, GatewayHeader, GatewayOf;
    assert ModelDir(a) + a.ggufFile == root + "/" + a.modelSlug + "/" + a.ggufFile;
    hide ModelDir;
    FieldSays(0, ModelName, a.modelName);
    FieldSays(0, ModelSlug, a.modelSlug);
    FieldSays(0, ModelPath, ModelDir(a) + a.ggufFile);
    FieldSays(0, NumLayers, ToString(a.numLayers));
    GatewayLinesAre(a);
  }

  lemma PortSpelled()
    ensures ToString(8000) == "8000"
  {
    assert Digits(8) == "8" && Digits(80) == "80" && Digits(800) == "800";
  }

  lemma GatewayLinesAre(a: MapArgs)
    ensures GatewayHeader(a) == GatewayOf(a)
  {
    UrlSpelled(a, 1);
    PortSpelled();
    BlanksSpelled();
    NamesSpelled();
    hide Name, Spaces, Field, Says, Opens, ToString, UrlOf;
    FieldSays(0, InferenceGateway, "");
    FieldSays(0, InferenceStages, "");
    FieldSays(2, ServiceName, a.gatewayService);
    FieldSays(2, Port, ToString(8000));
    FieldSays(2, FirstStageUrl, UrlOf(a, 1));
  }

  lemma StageHeadIs(a: MapArgs, root: string, id: nat)
    requires Counts(a) && 1 <= id <= a.numStages && RootOf(a.containerRoot, root)
    ensures BlockHead(a, id) == StageHeadOf(a, root + "/" + a.modelSlug, id)
  {
    FilesSpelled(a, root, id);
    BlanksSpelled();
    NamesSpelled();
    assert Bool(id == 1) == " " + if id == 1 then "true" else "false";
    hide Name, Spaces, Field, Says, Opens, ToString, PtFile, GgufFile, RootOf, Bool;
    FieldSays(0, StageId, ToString(id));
    FieldSays(2, PartitionId, DefaultPartitionId(id));
    FieldSays(2, ServiceName, ServiceOf(a, id));
    FieldSays(2, PhysicalNode, a.physicalNodes[id - 1]);
    FieldSays(2, PartitionFile, PtFile(a, id));
    FieldSays(2, NativePartitionFile, GgufFile(a, id));
    FieldSays(2, Backend, "llama");
    FieldSays(2, ComponentsOf, "");
    FieldSays(4, Embedding, if id == 1 then "true" else "false");
    FieldSays(4, Layers, "");
  }

  lemma StageTailIs(a: MapArgs, id: nat)
    ensures ClosingText(a, id) == StageTailOf(a, id)
  {
    UrlSpelled(a, id + 1);
    BlanksSpelled();
    NamesSpelled();
    assert Bool(id == a.numStages) == " " + if id == a.numStages then "true" else "false";
    hide Name, Spaces, Field, Says, Opens, ToString, UrlOf, Bool;
    FieldSays(4, Norm, if id == a.numStages then "true" else "false");
    FieldSays(4, LmHead, if id == a.numStages then "true" else "false");
    FieldSays(2, NextStageUrl, if id < a.numStages then UrlOf(a, id + 1) else "null");
  }

  lemma ItemIs(layer: int)
    ensures Item(4, layer) == "    - " + ToString(layer)
  {
    BlanksSpelled();
    hide ToString, Spaces;
    assert "    " + ("- " + ToString(layer)) == "    - " + ToString(layer);
  }

  lemma {:induction false} ItemsAre(layers: seq<int>)
    ensures Items(4, layers) == ItemsOf(layers)
  {
    hide ToString, Item;
    if layers != [] {
      ItemsAre(layers[1..]);
      ItemIs(layers[0]);
      assert ItemsOf(layers) == [Item(4, layers[0])] + ItemsOf(layers[1..]);
    }
  }

  lemma {:induction false} StagesAre(a: MapArgs, root: string, count: nat)
    requires Counts(a) && count <= a.numStages && RootOf(a.containerRoot, root)
    ensures StageBlocks(a, count) == StagesOf(a, root + "/" + a.modelSlug, count)
  {
    hide StageHeadOf, StageTailOf, ItemsOf, LayersOf, BlockHead, ClosingText, Items, Share, StageBlock, RootOf;
    if count > 0 {
      StagesAre(a, root, count - 1);
      BlockParts(a, count);
      StageHeadIs(a, root, count);
      ShareSpelled(a.numLayers, a.numStages, count);
      ItemsAre(LayersOf(a.numLayers, a.numStages, count));
      StageTailIs(a, count);
    }
  }

  lemma {:induction false} RoutesAre(a: MapArgs, count: nat)
    ensures RouteLines(a, count) == RoutesOf(a, count)
  {
    hide ToString;
    if count > 0 {
      RoutesAre(a, count - 1);
      UrlSpelled(a, count + 1);
    }
  }

  function TopologyOf(a: MapArgs): seq<string>
    requires Counts(a)
  {
    [Opens("", "topology"), "  probe_timeout_seconds: 0.25", "  route_candidates:"] + RoutesOf(a, a.numStages - 1)
  }

  lemma TopologyIs(a: MapArgs)
    requires Counts(a)
    ensures [Field(0, Topology, "")] + TailLines(a) == TopologyOf(a)
  {
    FieldSays(0, Topology, "");
    BlanksSpelled();
    NamesSpelled();
    RoutesAre(a, a.numStages - 1);
    hide Name, Field, Opens, RoutesOf, RouteLines;
  }

  /** Every line of a printed map, in order. */
  lemma MapIsPrinted(a: MapArgs, root: string)
    requires Counts(a) && RootOf(a.containerRoot, root)
    ensures MapLines(a)
         == HeaderOf(a, root) + StagesOf(a, root + "/" + a.modelSlug, a.numStages) + TopologyOf(a)
  {
    MapParts(a);
    hide *;
    HeaderIs(a, root);
    StagesAre(a, root, a.numStages);
    TopologyIs(a);
  }

  // ----- No two stages share anything -----

  lemma Between(head: string, x: string, y: string, tail: string)
    requires head + x + tail == head + y + tail
    ensures x == y
  {
    assert |x| == |y|;
    forall i | 0 <= i < |x| ensures x[i] == y[i] {
      assert (head + x + tail)[|head| + i] == x[i] && (head + y + tail)[|head| + i] == y[i];
    }
  }

  lemma NumbersApart(head: string, i: nat, j: nat, tail: string)
    requires i != j
    ensures head + ToString(i) + tail != head + ToString(j) + tail
  {
    hide ToString;
    if head + ToString(i) + tail == head + ToString(j) + tail {
      Between(head, ToString(i), ToString(j), tail);
      ToStringInjective(i, j);
    }
  }

  lemma EndsApart(x: string, y: string)
    ensures x + ".pt" != y + ".dli.gguf"
  {
    var p, g := x + ".pt", y + ".dli.gguf";
    assert p[|p| - 1] == 't' && g[|g| - 1] == 'f';
  }

  lemma UrlsApart(prefix: string, i: nat, j: nat)
    requires i != j
    ensures "http://" + prefix + "-" + ToString(i) + ":8000/forward-binary" != ""
    ensures ("http://" + prefix + "-" + ToString(i) + ":8000/forward-binary")
         != ("http://" + prefix + "-" + ToString(j) + ":8000/forward-binary")
  {
    hide ToString;
    NumbersApart("http://" + prefix + "-", i, j, ":8000/forward-binary");
  }

  lemma StageSpelled(p: Partition, a: MapArgs, dir: string, id: nat)
    requires Counts(a) && 1 <= id <= a.numStages && IsStage(p, a, dir, id)
    ensures p.serviceName == a.stagePrefix + "-" + ToString(id)
    ensures p.partitionFile == dir + "/stage_" + ToString(id) + ".pt"
    ensures p.nativePartitionFile == dir + "/partition-" + ToString(id) + ".dli.gguf"
    ensures p.nextStageUrl
         == if id == a.numStages then "" else "http://" + a.stagePrefix + "-" + ToString(id + 1) + ":8000/forward-binary"
  {
    hide ToString, LayersOf, Counts;
  }

  /** Two stages of one map have different names, addresses and files. */
  lemma StagesShareNothing(p: Partition, q: Partition, a: MapArgs, dir: string, i: nat, j: nat)
    requires Counts(a) && 1 <= i <= a.numStages && 1 <= j <= a.numStages && i != j
    requires IsStage(p, a, dir, i) && IsStage(q, a, dir, j)
    ensures p.serviceName != q.serviceName && p.nextStageUrl != q.nextStageUrl
    ensures p.partitionFile != q.partitionFile && p.nativePartitionFile != q.nativePartitionFile
    ensures p.partitionFile != q.nativePartitionFile
  {
    hide *;
    StageSpelled(p, a, dir, i);
    StageSpelled(q, a, dir, j);
    assert p.serviceName != q.serviceName by {
      NumbersApart(a.stagePrefix + "-", i, j, "");
      assert p.serviceName + "" == p.serviceName && q.serviceName + "" == q.serviceName;
    }
    assert p.partitionFile != q.partitionFile by { NumbersApart(dir + "/stage_", i, j, ".pt"); }
    assert p.nativePartitionFile != q.nativePartitionFile by { NumbersApart(dir + "/partition-", i, j, ".dli.gguf"); }
    assert p.partitionFile != q.nativePartitionFile by {
      EndsApart(dir + "/stage_" + ToString(i), dir + "/partition-" + ToString(j));
    }
    UrlsApart(a.stagePrefix, i + 1, j + 1);
    UrlsApart(a.stagePrefix, j + 1, i + 1);
  }
}
