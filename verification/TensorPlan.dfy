/** Which tensors of the model file each partition takes. */
module TensorPlan {
  import opened Basics
  import opened Decimal
  import opened PartitionGraph
  import opened Sorting

  const EMBEDDING := "token_embd.weight"
  const OUTPUT_NORM := "output_norm.weight"
  const OUTPUT := "output.weight"

  function LayerPrefix(layer: int): string {
    "blk." + ToString(layer) + "."
  }

  function LayerPrefixes(layers: seq<int>): seq<string> {
    seq(|layers|, i requires 0 <= i < |layers| => LayerPrefix(layers[i]))
  }

  datatype Plan = Plan(partitionId: string, names: seq<string>, prefixes: seq<string>)

  function PlanOf(p: Partition): Plan {
    var c := p.components;
    Plan(p.partitionId,
      (if c.embedding then [EMBEDDING] else []) + (if c.norm then [OUTPUT_NORM] else [])
        + (if c.lmHead then [OUTPUT] else []),
      LayerPrefixes(c.layers))
  }

  method BuildLlamaTensorNamePlan(p: Partition) returns (plan: Plan)
    ensures plan == PlanOf(p)
  {
    var c := p.components;
    var names: seq<string>, prefixes: seq<string> := [], [];
    if c.embedding { names := names + [EMBEDDING]; }
    for i := 0 to |c.layers|
      invariant prefixes == LayerPrefixes(c.layers[..i])
    {
      prefixes := prefixes + [LayerPrefix(c.layers[i])];
    }
    assert c.layers[..|c.layers|] == c.layers;
    if c.norm { names := names + [OUTPUT_NORM]; }
    if c.lmHead { names := names + [OUTPUT]; }
    plan := Plan(p.partitionId, names, prefixes);
  }

  predicate Matches(tensor: string, plan: Plan) {
    tensor in plan.names || exists i :: 0 <= i < |plan.prefixes| && plan.prefixes[i] <= tensor
  }

  method TensorMatchesPlan(tensor: string, plan: Plan) returns (r: bool)
    ensures r == Matches(tensor, plan)
  {
    for i := 0 to |plan.names|
      invariant tensor !in plan.names[..i]
    {
      if tensor == plan.names[i] { return true; }
    }
    for i := 0 to |plan.prefixes|
      invariant forall k :: 0 <= k < i ==> !(plan.prefixes[k] <= tensor)
    {
      if plan.prefixes[i] <= tensor { return true; }
    }
    return false;
  }

  /** The tensors of a partition, by name: what it claims of the three single ones, and all
      that starts with the prefix of one of its layers. */
  lemma MatchesByName(tensor: string, p: Partition)
    ensures Matches(tensor, PlanOf(p)) <==>
      || (p.components.embedding && tensor == "token_embd.weight")
      || (p.components.norm && tensor == "output_norm.weight")
      || (p.components.lmHead && tensor == "output.weight")
      || (exists i :: 0 <= i < |p.components.layers| && "blk." + ToString(p.components.layers[i]) + "." <= tensor)
  {
    hide ToString;
    var plan, layers := PlanOf(p), p.components.layers;
    assert tensor in plan.names <==>
      || (p.components.embedding && tensor == EMBEDDING) || (p.components.norm && tensor == OUTPUT_NORM)
      || (p.components.lmHead && tensor == OUTPUT);
    forall i | 0 <= i < |layers| ensures plan.prefixes[i] == "blk." + ToString(layers[i]) + "." {}
  }

  // ---- a layer prefix names one layer ----

  lemma NumberHasNoDot(i: int)
    ensures '.' !in ToString(i)
  {
    DigitsAreDigits(if i < 0 then -i else i);
  }

  /** Two dot-terminated numbers at the same place are the same number: blk.1. never takes a
      tensor of blk.10. */
  lemma PrefixNamesOneLayer(i: int, j: int, rest: string)
    ensures LayerPrefix(i) <= LayerPrefix(j) + rest <==> i == j
  {
    hide ToString;
    var a, b := ToString(i), ToString(j);
    NumberHasNoDot(i);
    NumberHasNoDot(j);
    var t := LayerPrefix(j) + rest;
    assert t[4..] == b + "." + rest;
    if LayerPrefix(i) <= t {
      assert a + "." <= b + "." + rest by {
        assert LayerPrefix(i)[4..] == a + ".";
        assert forall k :: 0 <= k < |a| + 1 ==> (a + ".")[k] == LayerPrefix(i)[k + 4] == t[k + 4] == (b + "." + rest)[k];
      }
      SameBeforeDot(a, b, rest);
      ToStringInjective(i, j);
    }
  }

  lemma SameBeforeDot(a: string, b: string, rest: string)
    requires '.' !in a && '.' !in b
    requires a + "." <= b + "." + rest
    ensures a == b
  {
    var t := b + "." + rest;
    assert t[|b|] == '.' && (a + ".")[|a|] == '.';
    assert forall k :: 0 <= k < |a| + 1 ==> t[k] == (a + ".")[k];
    assert |a| >= |b|;
    assert |b| >= |a|;
    assert forall k :: 0 <= k < |a| ==> a[k] == t[k];
    assert forall k :: 0 <= k < |b| ==> b[k] == t[k];
  }

  lemma FixedNamesAreNotLayers(i: int)
    ensures !(LayerPrefix(i) <= EMBEDDING) && !(LayerPrefix(i) <= OUTPUT) && !(LayerPrefix(i) <= OUTPUT_NORM)
  {
    hide ToString;
    assert LayerPrefix(i)[0] == 'b' && EMBEDDING[0] == 't' && OUTPUT[0] == 'o' && OUTPUT_NORM[0] == 'o';
  }

  /** What a partition takes, said without plans. */
  lemma TakenBy(p: Partition, tensor: string)
    ensures Matches(tensor, PlanOf(p)) <==>
      || (tensor == EMBEDDING && p.components.embedding)
      || (tensor == OUTPUT_NORM && p.components.norm)
      || (tensor == OUTPUT && p.components.lmHead)
      || (exists i :: 0 <= i < |p.components.layers| && LayerPrefix(p.components.layers[i]) <= tensor)
  {
    hide LayerPrefix, EMBEDDING, OUTPUT, OUTPUT_NORM;
    var ls := p.components.layers;
    assert PlanOf(p).prefixes == LayerPrefixes(ls);
    if i :| 0 <= i < |ls| && LayerPrefix(ls[i]) <= tensor {
      assert PlanOf(p).prefixes[i] <= tensor;
    }
  }

  lemma LayerTensorTakenBy(p: Partition, layer: int, rest: string)
    ensures Matches(LayerPrefix(layer) + rest, PlanOf(p)) <==> layer in p.components.layers
  {
    var tensor, ls := LayerPrefix(layer) + rest, p.components.layers;
    TakenBy(p, tensor);
    assert LayerPrefix(layer) <= tensor;
    FixedNamesAreNotLayers(layer);
    hide LayerPrefix, Matches, PlanOf;
    forall i | 0 <= i < |ls| ensures LayerPrefix(ls[i]) <= tensor <==> ls[i] == layer {
      PrefixNamesOneLayer(ls[i], layer, rest);
    }
  }

  lemma FixedTensorTakenBy(p: Partition)
    ensures Matches(EMBEDDING, PlanOf(p)) <==> OwnsEmbedding(p)
    ensures Matches(OUTPUT, PlanOf(p)) <==> OwnsHead(p)
    ensures Matches(OUTPUT_NORM, PlanOf(p)) <==> p.components.norm
  {
    TakenBy(p, EMBEDDING);
    TakenBy(p, OUTPUT);
    TakenBy(p, OUTPUT_NORM);
    var ls := p.components.layers;
    forall i | 0 <= i < |ls|
      ensures !(LayerPrefix(ls[i]) <= EMBEDDING) && !(LayerPrefix(ls[i]) <= OUTPUT) && !(LayerPrefix(ls[i]) <= OUTPUT_NORM)
    {
      FixedNamesAreNotLayers(ls[i]);
    }
    hide Matches, PlanOf, LayerPrefix;
    assert EMBEDDING != OUTPUT && EMBEDDING != OUTPUT_NORM && OUTPUT != OUTPUT_NORM;
  }

  // ---- exactly one owner ----

  ghost predicate OneOwner(ps: seq<Partition>, tensor: string) {
    exists j :: 0 <= j < |ps| && Matches(tensor, PlanOf(ps[j]))
      && forall k :: 0 <= k < |ps| && Matches(tensor, PlanOf(ps[k])) ==> k == j
  }

  lemma {:induction false} LayerOwnerIsUnique(ps: seq<Partition>, x: int, j: nat, k: nat)
    requires j < k < |ps| && x in ps[j].components.layers && x in ps[k].components.layers
    ensures multiset(AllLayers(ps))[x] > 1
  {
    var init, last := ps[..|ps| - 1], ps[|ps| - 1];
    if k < |ps| - 1 {
      LayerOwnerIsUnique(init, x, j, k);
    } else {
      LayerOfGraph(init, x);
      assert init[j] == ps[j];
      assert multiset(AllLayers(init))[x] > 0 && multiset(last.components.layers)[x] > 0;
    }
  }

  /** Over an accepted graph every tensor of every layer, the embedding and the output head
      have exactly one owner. */
  lemma AcceptedGraphOwnsOnce(ps: seq<Partition>, numLayers: int, layer: int, rest: string)
    requires GraphOk(ps, numLayers) && 0 <= layer < numLayers
    ensures OneOwner(ps, LayerPrefix(layer) + rest)
    ensures OneOwner(ps, EMBEDDING)
    ensures OneOwner(ps, OUTPUT)
  {
    hide Matches, PlanOf, LayerPrefix, AllLayers;
    LayersInRange(AllLayers(ps), numLayers, layer);
    LayerOfGraph(ps, layer);
    forall j | 0 <= j < |ps|
      ensures Matches(LayerPrefix(layer) + rest, PlanOf(ps[j])) <==> layer in ps[j].components.layers
      ensures Matches(EMBEDDING, PlanOf(ps[j])) <==> OwnsEmbedding(ps[j])
      ensures Matches(OUTPUT, PlanOf(ps[j])) <==> OwnsHead(ps[j])
    {
      LayerTensorTakenBy(ps[j], layer, rest);
      FixedTensorTakenBy(ps[j]);
    }
    forall j, k | 0 <= j < k < |ps| ensures !(layer in ps[j].components.layers && layer in ps[k].components.layers) {
      if layer in ps[j].components.layers && layer in ps[k].components.layers {
        LayerOwnerIsUnique(ps, layer, j, k);
      }
    }
  }

  predicate OwnsNorm(p: Partition) { p.components.norm }

  /** The norm has one owner exactly when one partition claims it; the gateway's check does
      not ask for that. */
  lemma NormOwnedOnce(ps: seq<Partition>)
    ensures OneOwner(ps, OUTPUT_NORM) <==> ExactlyOne(ps, OwnsNorm)
  {
    hide Matches, PlanOf, OUTPUT_NORM;
    forall j | 0 <= j < |ps| ensures Matches(OUTPUT_NORM, PlanOf(ps[j])) <==> OwnsNorm(ps[j]) {
      FixedTensorTakenBy(ps[j]);
    }
  }

  /** An accepted graph in which no partition takes the norm. */
  lemma NormIsNotChecked()
    ensures exists ps: seq<Partition> :: GraphOk(ps, 1) && !OneOwner(ps, OUTPUT_NORM)
  {
    var p := Partition(1, "partition-1", "stage-1", "", "", "", "", "", Components(true, [0], false, true));
    var ps := [p];
    assert ps[..0] == [];
    assert AllLayers(ps) == [] + [0] == [0];
    assert OwnsEmbedding(ps[0]) && OwnsHead(ps[0]) && IsTerminal(ps[0]);
    assert GraphOk(ps, 1);
    NormOwnedOnce(ps);
  }

  lemma NoSharedLayer(ps: seq<Partition>, numLayers: int, j: nat, k: nat, x: int, y: int, tensor: string)
    requires LayersOk(AllLayers(ps), numLayers) && j < k < |ps|
    requires x in ps[j].components.layers && LayerPrefix(x) <= tensor && LayerPrefix(y) <= tensor
    ensures y !in ps[k].components.layers
  {
    hide AllLayers, LayerPrefix, LayersOk;
    var rest := tensor[|LayerPrefix(x)|..];
    assert tensor == LayerPrefix(x) + rest;
    PrefixNamesOneLayer(y, x, rest);
    if y in ps[k].components.layers { LayerOwnerIsUnique(ps, x, j, k); }
    LayerOfGraph(ps, x);
    LayersInRange(AllLayers(ps), numLayers, x);
  }

  /** Two partitions of an accepted graph can only have the norm in common. */
  lemma SharedTensorIsNorm(ps: seq<Partition>, numLayers: int, j: nat, k: nat, tensor: string)
    requires GraphOk(ps, numLayers) && j < k < |ps|
    requires Matches(tensor, PlanOf(ps[j])) && Matches(tensor, PlanOf(ps[k]))
    ensures tensor == OUTPUT_NORM
  {
    TakenBy(ps[j], tensor);
    TakenBy(ps[k], tensor);
    hide Matches, PlanOf, AllLayers, LayerPrefix, LayersOk;
    var a, b := ps[j].components.layers, ps[k].components.layers;
    forall x | LayerPrefix(x) <= tensor ensures tensor != EMBEDDING && tensor != OUTPUT {
      FixedNamesAreNotLayers(x);
    }
    assert EMBEDDING != OUTPUT;
    forall x, y | 0 <= x < |a| && LayerPrefix(a[x]) <= tensor && 0 <= y < |b| ensures !(LayerPrefix(b[y]) <= tensor) {
      if LayerPrefix(b[y]) <= tensor { NoSharedLayer(ps, numLayers, j, k, a[x], b[y], tensor); }
    }
  }
}
