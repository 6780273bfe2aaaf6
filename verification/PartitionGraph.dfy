/** The partitions of a model and the gateway's check that they make up one whole model. */
module PartitionGraph {
  import opened Basics
  import opened Sorting

  datatype Components = Components(embedding: bool, layers: seq<int>, norm: bool, lmHead: bool)

  datatype Partition = Partition(
    stageId: int, partitionId: string, serviceName: string, physicalNode: string,
    partitionFile: string, nativePartitionFile: string, backend: string,
    nextStageUrl: string, components: Components)

  datatype Fault =
    | EmptyGraph
    | Unnamed(at: nat)
    | Unserved(at: nat)
    | TerminalWithoutHead(at: nat)
    | NegativeLayer(at: nat)
    | LayerOutsideModel(at: nat, layer: int)
    | EmbeddingOwners(count: nat)
    | HeadOwners(count: nat)
    | Terminals(count: nat)
    | DuplicateLayers(layers: seq<int>)
    | MissingLayers(layers: seq<int>)

  datatype Validation =
    | Accepted(assignedLayers: nat, embeddingOwners: nat, headOwners: nat, terminalId: string)
    | Rejected(fault: Fault)

  predicate OwnsEmbedding(p: Partition) { p.components.embedding }
  predicate OwnsHead(p: Partition) { p.components.lmHead }
  predicate IsTerminal(p: Partition) { p.nextStageUrl == "" }

  /** All layer lists, one after the other. */
  function AllLayers(ps: seq<Partition>): seq<int> {
    if ps == [] then [] else AllLayers(ps[..|ps| - 1]) + ps[|ps| - 1].components.layers
  }

  function FirstLayers(n: nat): seq<int> {
    seq(n, i => i)
  }

  predicate ExactlyOne(ps: seq<Partition>, owns: Partition -> bool) {
    exists i :: 0 <= i < |ps| && owns(ps[i]) && forall j :: 0 <= j < |ps| && owns(ps[j]) ==> j == i
  }

  predicate Increasing(s: seq<int>) {
    forall i, j :: 0 <= i < j < |s| ==> s[i] < s[j]
  }

  predicate Sorted(s: seq<int>) {
    forall i, j :: 0 <= i < j < |s| ==> s[i] <= s[j]
  }

  /** What the gateway asks of a graph. With a known number of layers the layer lists are
      together a permutation of 0 .. numLayers - 1; otherwise they only must not overlap. */
  ghost predicate GraphOk(ps: seq<Partition>, numLayers: int) {
    && ps != []
    && (forall i :: 0 <= i < |ps| ==> ps[i].partitionId != "" && ps[i].serviceName != "")
    && ExactlyOne(ps, OwnsEmbedding)
    && ExactlyOne(ps, OwnsHead)
    && ExactlyOne(ps, IsTerminal)
    && (forall i :: 0 <= i < |ps| && IsTerminal(ps[i]) ==> OwnsHead(ps[i]))
    && LayersOk(AllLayers(ps), numLayers)
  }

  ghost predicate LayersOk(layers: seq<int>, numLayers: int) {
    if numLayers > 0 then forall x :: multiset(layers)[x] == (if 0 <= x < numLayers then 1 else 0)
    else forall x :: x in layers ==> x >= 0 && multiset(layers)[x] == 1
  }

  /** What each rejection says about the graph. */
  ghost predicate FaultHolds(ps: seq<Partition>, numLayers: int, fault: Fault) {
    match fault
    case EmptyGraph => ps == []
    case Unnamed(at) => at < |ps| && ps[at].partitionId == ""
    case Unserved(at) => at < |ps| && ps[at].serviceName == ""
    case TerminalWithoutHead(at) => at < |ps| && IsTerminal(ps[at]) && !OwnsHead(ps[at])
    case NegativeLayer(at) => at < |ps| && exists x :: x in ps[at].components.layers && x < 0
    case LayerOutsideModel(at, layer) => at < |ps| && layer in ps[at].components.layers && 0 < numLayers <= layer
    case EmbeddingOwners(count) => count == CountIf(ps, OwnsEmbedding) != 1
    case HeadOwners(count) => count == CountIf(ps, OwnsHead) != 1
    case Terminals(count) => count == CountIf(ps, IsTerminal) != 1
    case DuplicateLayers(layers) =>
      && layers != [] && Increasing(layers)
      && forall x :: x in layers <==> multiset(AllLayers(ps))[x] > 1
    case MissingLayers(layers) =>
      && layers != [] && Increasing(layers)
      && forall x :: x in layers <==> 0 <= x < numLayers && x !in AllLayers(ps)
  }

  function CountIf(ps: seq<Partition>, owns: Partition -> bool): nat {
    if ps == [] then 0 else CountIf(ps[..|ps| - 1], owns) + (if owns(ps[|ps| - 1]) then 1 else 0)
  }

  lemma {:induction false} CountIfNone(ps: seq<Partition>, owns: Partition -> bool)
    ensures CountIf(ps, owns) == 0 <==> forall i :: 0 <= i < |ps| ==> !owns(ps[i])
  {
    if ps == [] {
    } else {
      var init := ps[..|ps| - 1];
      CountIfNone(init, owns);
      assert forall i :: 0 <= i < |init| ==> init[i] == ps[i];
    }
  }

  /** Counting one owner and having exactly one owner is the same. */
  lemma {:induction false} CountIfOne(ps: seq<Partition>, owns: Partition -> bool)
    ensures CountIf(ps, owns) == 1 <==> ExactlyOne(ps, owns)
  {
    if ps == [] {
    } else {
      var init := ps[..|ps| - 1];
      CountIfOne(init, owns);
      CountIfNone(init, owns);
      assert forall i :: 0 <= i < |init| ==> init[i] == ps[i];
      if owns(ps[|ps| - 1]) {
      } else if ExactlyOne(ps, owns) {
        var i :| 0 <= i < |ps| && owns(ps[i]) && forall j :: 0 <= j < |ps| && owns(ps[j]) ==> j == i;
        assert owns(init[i]);
      }
    }
  }

  lemma TakeOneMore<T>(s: seq<T>, i: nat)
    requires i < |s|
    ensures s[..i + 1] == s[..i] + [s[i]]
    ensures s[..i + 1][..i] == s[..i]
  {}

  lemma NextPartition(ps: seq<Partition>, i: nat, owns: Partition -> bool)
    requires i < |ps|
    ensures AllLayers(ps[..i + 1]) == AllLayers(ps[..i]) + ps[i].components.layers
    ensures CountIf(ps[..i + 1], owns) == CountIf(ps[..i], owns) + (if owns(ps[i]) then 1 else 0)
  {
    TakeOneMore(ps, i);
  }

  lemma {:induction false} LayerOfGraph(ps: seq<Partition>, x: int)
    ensures x in AllLayers(ps) <==> exists i :: 0 <= i < |ps| && x in ps[i].components.layers
  {
    if ps == [] {
    } else {
      var init := ps[..|ps| - 1];
      LayerOfGraph(init, x);
      assert forall i :: 0 <= i < |init| ==> init[i] == ps[i];
    }
  }

  predicate AtMost(x: int, y: int) { x <= y }

  lemma AtMostIsOrder()
    ensures TotalOrder(AtMost)
  {}

  lemma SortedInts(layers: seq<int>)
    ensures Sorted(Sort(AtMost, layers)) && multiset(Sort(AtMost, layers)) == multiset(layers)
    ensures |Sort(AtMost, layers)| == |layers|
  {
    AtMostIsOrder();
    SortElements(AtMost, layers);
    SortSorts(AtMost, layers);
    hide Sort;
  }

  /** The repeated values of a sorted list, each once. */
  method Duplicates(s: seq<int>) returns (ds: seq<int>)
    requires Sorted(s)
    ensures Increasing(ds)
    ensures forall x :: x in ds <==> exists i, j :: 0 <= i < j < |s| && s[i] == x == s[j]
  {
    ds := [];
    var i := 1;
    while i < |s|
      invariant 1 <= i <= |s| || |s| == 0
      invariant |s| == 0 ==> ds == [] && i == 1
      invariant Increasing(ds)
      invariant forall k :: 0 <= k < |ds| ==> s != [] && ds[k] <= s[i - 1]
      invariant forall x :: x in ds <==> exists j :: 0 < j < i <= |s| && s[j - 1] == x == s[j]
    {
      if s[i] == s[i - 1] {
        if ds == [] || ds[|ds| - 1] != s[i] {
          ds := ds + [s[i]];
        }
      }
      i := i + 1;
    }
    forall x ensures x in ds <==> exists i, j :: 0 <= i < j < |s| && s[i] == x == s[j] {
      if i, j :| 0 <= i < j < |s| && s[i] == x == s[j] {
        assert s[j - 1] == x == s[j];
      }
    }
  }

  /** The values of 0 .. n - 1 that an increasing list of such values lacks. */
  method Missing(s: seq<int>, n: nat) returns (ms: seq<int>)
    requires Increasing(s) && forall i :: 0 <= i < |s| ==> 0 <= s[i] < n
    ensures Increasing(ms)
    ensures forall x :: x in ms <==> 0 <= x < n && x !in s
  {
    ms := [];
    var cursor := 0;
    for layer := 0 to n
      invariant 0 <= cursor <= |s|
      invariant forall i :: 0 <= i < |s| ==> (i < cursor <==> s[i] < layer)
      invariant Increasing(ms) && forall k :: 0 <= k < |ms| ==> ms[k] < layer
      invariant forall x :: x in ms <==> 0 <= x < layer && x !in s
    {
      if cursor < |s| && s[cursor] == layer {
        cursor := cursor + 1;
      } else {
        assert layer !in s;
        ms := ms + [layer];
      }
    }
  }

  /** A list of counts: how often each value of a sorted list occurs. */
  lemma OccursTwice(s: seq<int>, x: int)
    ensures multiset(s)[x] > 1 <==> exists i, j :: 0 <= i < j < |s| && s[i] == x == s[j]
    ensures multiset(s)[x] > 0 <==> x in s
  {
    if i, j :| 0 <= i < j < |s| && s[i] == x == s[j] {
      assert s == s[..i] + [x] + s[i + 1..j] + [x] + s[j + 1..];
    } else {
      OccursAtMostOnce(s, x);
    }
  }

  lemma {:induction false} OccursAtMostOnce(s: seq<int>, x: int)
    requires !exists i, j :: 0 <= i < j < |s| && s[i] == x == s[j]
    ensures multiset(s)[x] <= 1
  {
    if s == [] {
    } else {
      var t := s[1..];
      assert s == [s[0]] + t;
      forall i, j | 0 <= i < j < |t| ensures !(t[i] == x == t[j]) {
        assert t[i] == s[i + 1] && t[j] == s[j + 1];
      }
      OccursAtMostOnce(t, x);
      assert s[0] == x ==> x !in t;
    }
  }

  /** What a sorted list without repeats and gaps says about the layers. */
  lemma LayersDecided(layers: seq<int>, numLayers: int)
    requires InRange(layers, numLayers)
    ensures LayersOk(layers, numLayers) <==>
              && (forall x :: multiset(layers)[x] <= 1)
              && (forall x :: 0 <= x < numLayers ==> x in layers)
  {
    assert forall x :: x in layers <==> multiset(layers)[x] > 0;
  }

  datatype Tally = Tally(layers: seq<int>, embeddings: nat, heads: nat, terminals: nat, terminalId: string)

  /** The inner loop: one partition's layers, checked and appended. */
  method PushLayers(sofar: seq<int>, layers: seq<int>, at: nat, numLayers: int) returns (r: Result<seq<int>, Fault>)
    ensures r.Ok? ==> r.value == sofar + layers && InRange(layers, numLayers)
    ensures r.Err? ==>
      || (r.error == NegativeLayer(at) && exists x :: x in layers && x < 0)
      || (exists x :: r.error == LayerOutsideModel(at, x) && x in layers && 0 < numLayers <= x)
  {
    var pushed := sofar;
    for j := 0 to |layers|
      invariant pushed == sofar + layers[..j]
      invariant forall x :: x in layers[..j] ==> x >= 0 && (numLayers > 0 ==> x < numLayers)
    {
      var layer := layers[j];
      assert layer in layers;
      if layer < 0 { return Err(NegativeLayer(at)); }
      if numLayers > 0 && layer >= numLayers { return Err(LayerOutsideModel(at, layer)); }
      pushed := pushed + [layer];
      TakeOneMore(layers, j);
    }
    assert layers[..|layers|] == layers;
    r := Ok(pushed);
  }

  lemma FaultOfPartition(ps: seq<Partition>, i: nat, numLayers: int, fault: Fault)
    requires i < |ps|
    requires
      || (fault == NegativeLayer(i) && exists x :: x in ps[i].components.layers && x < 0)
      || (exists x :: fault == LayerOutsideModel(i, x) && x in ps[i].components.layers && 0 < numLayers <= x)
    ensures FaultHolds(ps, numLayers, fault)
  {}

  lemma FaultAt(ps: seq<Partition>, i: nat, numLayers: int, fault: Fault)
    requires i < |ps|
    requires
      || (fault == Unnamed(i) && ps[i].partitionId == "")
      || (fault == Unserved(i) && ps[i].serviceName == "")
      || (fault == TerminalWithoutHead(i) && ps[i].nextStageUrl == "" && !ps[i].components.lmHead)
    ensures FaultHolds(ps, numLayers, fault)
  {}

  function NextTally(t: Tally, p: Partition): Tally {
    Tally(t.layers + p.components.layers,
      t.embeddings + (if OwnsEmbedding(p) then 1 else 0),
      t.heads + (if OwnsHead(p) then 1 else 0),
      t.terminals + (if IsTerminal(p) then 1 else 0),
      if IsTerminal(p) then p.partitionId else t.terminalId)
  }

  /** What the first loop has counted and checked after i partitions. */
  ghost predicate Surveyed(ps: seq<Partition>, i: nat, numLayers: int, t: Tally)
    requires i <= |ps|
  {
    && t.layers == AllLayers(ps[..i])
    && t.embeddings == CountIf(ps[..i], OwnsEmbedding)
    && t.heads == CountIf(ps[..i], OwnsHead)
    && t.terminals == CountIf(ps[..i], IsTerminal)
    && (forall k :: 0 <= k < i ==> ps[k].partitionId != "" && ps[k].serviceName != "")
    && (forall k :: 0 <= k < i && IsTerminal(ps[k]) ==> OwnsHead(ps[k]))
    && InRange(t.layers, numLayers)
    && (t.terminals > 0 ==> exists k :: 0 <= k < i && IsTerminal(ps[k]) && t.terminalId == ps[k].partitionId)
  }

  ghost predicate InRange(layers: seq<int>, numLayers: int) {
    forall x :: x in layers ==> x >= 0 && (numLayers > 0 ==> x < numLayers)
  }

  lemma SurveyNext(ps: seq<Partition>, i: nat, numLayers: int, t: Tally)
    requires i < |ps| && Surveyed(ps, i, numLayers, t)
    requires ps[i].partitionId != "" && ps[i].serviceName != "" && (IsTerminal(ps[i]) ==> OwnsHead(ps[i]))
    requires InRange(ps[i].components.layers, numLayers)
    ensures Surveyed(ps, i + 1, numLayers, NextTally(t, ps[i]))
  {
    hide AllLayers, CountIf;
    NextPartition(ps, i, OwnsEmbedding);
    NextPartition(ps, i, OwnsHead);
    NextPartition(ps, i, IsTerminal);
  }

  lemma SurveyStarts(ps: seq<Partition>, numLayers: int)
    ensures Surveyed(ps, 0, numLayers, Tally([], 0, 0, 0, ""))
  {}

  /** The first loop: names, owners and the range of the layers. */
  method Survey(ps: seq<Partition>, numLayers: int) returns (r: Result<Tally, Fault>)
    ensures r.Ok? ==> Surveyed(ps, |ps|, numLayers, r.value)
    ensures r.Err? ==> FaultHolds(ps, numLayers, r.error)
  {
    hide Surveyed, FaultHolds, InRange;
    var t := Tally([], 0, 0, 0, "");
    SurveyStarts(ps, numLayers);
    for i := 0 to |ps|
      invariant Surveyed(ps, i, numLayers, t)
    {
      var p := ps[i];
      ghost var before := t;
      if p.partitionId == "" { FaultAt(ps, i, numLayers, Unnamed(i)); return Err(Unnamed(i)); }
      if p.serviceName == "" { FaultAt(ps, i, numLayers, Unserved(i)); return Err(Unserved(i)); }
      if p.components.embedding { t := t.(embeddings := t.embeddings + 1); }
      if p.components.lmHead { t := t.(heads := t.heads + 1); }
      if p.nextStageUrl == "" {
        t := t.(terminals := t.terminals + 1, terminalId := p.partitionId);
        if !p.components.lmHead {
          FaultAt(ps, i, numLayers, TerminalWithoutHead(i));
          return Err(TerminalWithoutHead(i));
        }
      }
      var pushed := PushLayers(t.layers, p.components.layers, i, numLayers);
      if pushed.Err? {
        FaultOfPartition(ps, i, numLayers, pushed.error);
        return Err(pushed.error);
      }
      t := t.(layers := pushed.value);
      SurveyNext(ps, i, numLayers, before);
    }
    r := Ok(t);
  }

  /** After the owners: sort, look for repeats, look for gaps. */
  method CheckLayers(layers: seq<int>, numLayers: int) returns (fault: Option<Fault>)
    requires InRange(layers, numLayers)
    ensures fault.None? <==> (forall x :: multiset(layers)[x] <= 1) && (forall x :: 0 <= x < numLayers ==> x in layers)
    ensures fault.Some? ==> match fault.value
      case DuplicateLayers(ds) => ds != [] && Increasing(ds) && forall x :: x in ds <==> multiset(layers)[x] > 1
      case MissingLayers(ms) => ms != [] && Increasing(ms) && forall x :: x in ms <==> 0 <= x < numLayers && x !in layers
      case _ => false
  {
    var sorted := Sort(AtMost, layers);
    SortedInts(layers);
    hide Sort;
    forall x ensures multiset(sorted)[x] == multiset(layers)[x] && (x in layers <==> x in sorted) {
      assert x in multiset(layers) <==> x in layers;
      assert x in multiset(sorted) <==> x in sorted;
    }
    var ds := Duplicates(sorted);
    forall x ensures x in ds <==> multiset(layers)[x] > 1 {
      OccursTwice(sorted, x);
    }
    if ds != [] {
      assert ds[0] in ds;
      return Some(DuplicateLayers(ds));
    }
    if numLayers > 0 {
      forall i, j | 0 <= i < j < |sorted| ensures sorted[i] < sorted[j] {
        assert sorted[i] !in ds;
      }
      forall i | 0 <= i < |sorted| ensures 0 <= sorted[i] < numLayers {
        assert sorted[i] in layers;
      }
      var ms := Missing(sorted, numLayers);
      if ms != [] {
        assert ms[0] in ms;
        return Some(MissingLayers(ms));
      }
    }
    return None;
  }

  /** No rejection fits a graph that is one whole model. */
  lemma FaultsRefute(ps: seq<Partition>, numLayers: int, fault: Fault)
    requires FaultHolds(ps, numLayers, fault)
    ensures !GraphOk(ps, numLayers)
  {
    hide AllLayers, CountIf, LayersOk;
    if GraphOk(ps, numLayers) {
      match fault
      case EmbeddingOwners(_) => CountIfOne(ps, OwnsEmbedding);
      case HeadOwners(_) => CountIfOne(ps, OwnsHead);
      case Terminals(_) => CountIfOne(ps, IsTerminal);
      case NegativeLayer(at) =>
        var x :| x in ps[at].components.layers && x < 0;
        LayerOfGraph(ps, x);
        LayersInRange(AllLayers(ps), numLayers, x);
      case LayerOutsideModel(at, layer) =>
        LayerOfGraph(ps, layer);
        LayersInRange(AllLayers(ps), numLayers, layer);
      case DuplicateLayers(layers) =>
        assert layers[0] in layers;
        LayersInRange(AllLayers(ps), numLayers, layers[0]);
      case MissingLayers(layers) =>
        assert layers[0] in layers;
        LayersInRange(AllLayers(ps), numLayers, layers[0]);
      case _ =>
    }
  }

  lemma LayersInRange(layers: seq<int>, numLayers: int, x: int)
    requires LayersOk(layers, numLayers)
    ensures multiset(layers)[x] <= 1
    ensures x in layers ==> x >= 0 && (numLayers > 0 ==> x < numLayers)
    ensures 0 <= x < numLayers ==> x in layers
  {
    assert x in layers <==> multiset(layers)[x] > 0;
  }

  /** The check accepts exactly the graphs that are whole models, and names a real fault
      of every other graph. */
  method ValidatePartitionGraph(ps: seq<Partition>, numLayers: int) returns (v: Validation)
    ensures v.Accepted? <==> GraphOk(ps, numLayers)
    ensures v.Accepted? ==> v.assignedLayers == |AllLayers(ps)| && v.embeddingOwners == 1 == v.headOwners
    ensures v.Accepted? ==> exists i :: 0 <= i < |ps| && IsTerminal(ps[i]) && v.terminalId == ps[i].partitionId
    ensures v.Rejected? ==> FaultHolds(ps, numLayers, v.fault)
  {
    hide AllLayers, CountIf;
    if ps == [] { return Rejected(EmptyGraph); }
    var r := Survey(ps, numLayers);
    CountIfOne(ps, OwnsEmbedding);
    CountIfOne(ps, OwnsHead);
    CountIfOne(ps, IsTerminal);
    match r
    case Err(fault) =>
      FaultsRefute(ps, numLayers, fault);
      return Rejected(fault);
    case Ok(t) =>
      assert ps[..|ps|] == ps;
      if t.embeddings != 1 { return Rejected(EmbeddingOwners(t.embeddings)); }
      if t.heads != 1 { return Rejected(HeadOwners(t.heads)); }
      if t.terminals != 1 { return Rejected(Terminals(t.terminals)); }
      LayersDecided(t.layers, numLayers);
      var fault := CheckLayers(t.layers, numLayers);
      if fault.Some? { return Rejected(fault.value); }
      return Accepted(|t.layers|, t.embeddings, t.heads, t.terminalId);
  }

  lemma {:induction false} IncreasingWithoutGaps(s: seq<int>, n: nat)
    requires Increasing(s)
    requires forall i :: 0 <= i < |s| ==> 0 <= s[i] < n
    requires forall x :: 0 <= x < n ==> x in s
    ensures s == FirstLayers(n)
  {
    assert |s| > 0 ==> s[0] < n;
    if n == 0 {
    } else {
      assert n - 1 in s;
      var last := |s| - 1;
      assert s[last] == n - 1;
      var init := s[..last];
      forall x | 0 <= x < n - 1 ensures x in init {
        assert x in s;
      }
      IncreasingWithoutGaps(init, n - 1);
      assert s == init + [n - 1];
    }
  }

  /** With a known number of layers, the accepted layer lists are together a permutation of
      0 .. numLayers - 1, and every permutation is accepted. */
  lemma LayersArePermutation(layers: seq<int>, numLayers: nat)
    requires numLayers > 0
    ensures LayersOk(layers, numLayers) <==> multiset(layers) == multiset(FirstLayers(numLayers))
    ensures LayersOk(layers, numLayers) ==> |layers| == numLayers
  {
    if LayersOk(layers, numLayers) {
      var s := Sort(AtMost, layers);
      SortedInts(layers);
      forall x ensures x in s <==> 0 <= x < numLayers {
        assert multiset(s)[x] == multiset(layers)[x];
        assert x in s <==> multiset(s)[x] > 0;
      }
      assert forall i :: 0 <= i < |s| ==> s[i] in s;
      forall i, j | 0 <= i < j < |s| ensures s[i] < s[j] {
        OccursTwice(s, s[i]);
        assert multiset(s)[s[i]] == multiset(layers)[s[i]];
      }
      IncreasingWithoutGaps(s, numLayers);
    } else if multiset(layers) == multiset(FirstLayers(numLayers)) {
      forall x ensures multiset(layers)[x] == (if 0 <= x < numLayers then 1 else 0) {
        OccursTwice(FirstLayers(numLayers), x);
        if 0 <= x < numLayers { assert FirstLayers(numLayers)[x] == x; }
      }
      assert false;
    }
  }
}
