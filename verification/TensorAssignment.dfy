/** Dividing the tensors of a model file among the partitions, and checking a shard. */
module TensorAssignment {
  import opened Basics
  import opened PartitionGraph
  import opened Sorting
  import opened TensorPlan

  /** The order of std::string. */
  predicate AtMostText(a: string, b: string) {
    a == "" || (b != "" && (a[0] < b[0] || (a[0] == b[0] && AtMostText(a[1..], b[1..]))))
  }

  lemma {:induction false} TextOrTotal(a: string, b: string)
    ensures AtMostText(a, b) || AtMostText(b, a)
    ensures AtMostText(a, b) && AtMostText(b, a) ==> a == b
  {
    if a != "" && b != "" && a[0] == b[0] {
      TextOrTotal(a[1..], b[1..]);
      assert a == [a[0]] + a[1..] && b == [b[0]] + b[1..];
    }
  }

  lemma {:induction false} TextTransitive(a: string, b: string, c: string)
    requires AtMostText(a, b) && AtMostText(b, c)
    ensures AtMostText(a, c)
  {
    if a != "" && a[0] == b[0] == c[0] { TextTransitive(a[1..], b[1..], c[1..]); }
  }

  lemma TextIsOrder()
    ensures TotalOrder(AtMostText)
  {
    forall a, b ensures (AtMostText(a, b) || AtMostText(b, a)) && (AtMostText(a, b) && AtMostText(b, a) ==> a == b) {
      TextOrTotal(a, b);
    }
    forall a, b, c | AtMostText(a, b) && AtMostText(b, c) ensures AtMostText(a, c) {
      TextTransitive(a, b, c);
    }
  }

  datatype Assignment = Assignment(
    partitionId: string, tensors: seq<string>, missingNames: seq<string>, missingPrefixes: seq<string>)

  function Kept(names: seq<string>, keep: string -> bool): seq<string> {
    if names == [] then []
    else Kept(names[..|names| - 1], keep) + if keep(names[|names| - 1]) then [names[|names| - 1]] else []
  }

  lemma {:induction false} KeptCounts(names: seq<string>, keep: string -> bool, t: string)
    ensures multiset(Kept(names, keep))[t] == if keep(t) then multiset(names)[t] else 0
  {
    if names == [] {
    } else {
      KeptCounts(names[..|names| - 1], keep, t);
      assert names == names[..|names| - 1] + [names[|names| - 1]];
    }
  }

  predicate HasPrefix(tensors: seq<string>, prefix: string) {
    exists i :: 0 <= i < |tensors| && prefix <= tensors[i]
  }

  function AssignmentOf(tensors: seq<string>, plan: Plan): Assignment {
    Assignment(plan.partitionId,
      Sort(AtMostText, Kept(tensors, t => Matches(t, plan))),
      Sort(AtMostText, Kept(plan.names, n => n !in tensors)),
      Sort(AtMostText, Kept(plan.prefixes, p => !HasPrefix(tensors, p))))
  }

  lemma KeptOneMore(names: seq<string>, i: nat, keep: string -> bool)
    requires i < |names|
    ensures Kept(names[..i + 1], keep) == Kept(names[..i], keep) + if keep(names[i]) then [names[i]] else []
  {
    assert names[..i + 1][..i] == names[..i];
  }

  method AssignTensorsToPartition(tensors: seq<string>, plan: Plan) returns (a: Assignment)
    ensures a == AssignmentOf(tensors, plan)
  {
    hide Matches, HasPrefix, Sort;
    var missingNames: seq<string>, missingPrefixes: seq<string>, taken: seq<string> := [], [], [];
    ghost var absent, unserved, matches := n => n !in tensors, p => !HasPrefix(tensors, p), t => Matches(t, plan);
    for i := 0 to |plan.names|
      invariant missingNames == Kept(plan.names[..i], absent)
    {
      KeptOneMore(plan.names, i, absent);
      if plan.names[i] !in tensors { missingNames := missingNames + [plan.names[i]]; }
    }
    for i := 0 to |plan.prefixes|
      invariant missingPrefixes == Kept(plan.prefixes[..i], unserved)
    {
      KeptOneMore(plan.prefixes, i, unserved);
      if !HasPrefix(tensors, plan.prefixes[i]) { missingPrefixes := missingPrefixes + [plan.prefixes[i]]; }
    }
    for i := 0 to |tensors|
      invariant taken == Kept(tensors[..i], matches)
    {
      KeptOneMore(tensors, i, matches);
      var fits := TensorMatchesPlan(tensors[i], plan);
      if fits { taken := taken + [tensors[i]]; }
    }
    assert plan.names[..|plan.names|] == plan.names && plan.prefixes[..|plan.prefixes|] == plan.prefixes;
    assert tensors[..|tensors|] == tensors;
    a := Assignment(plan.partitionId, Sort(AtMostText, taken), Sort(AtMostText, missingNames),
                    Sort(AtMostText, missingPrefixes));
  }

  method AssignTensorsToPartitions(tensors: seq<string>, plans: seq<Plan>) returns (r: seq<Assignment>)
    ensures |r| == |plans| && forall i :: 0 <= i < |plans| ==> r[i] == AssignmentOf(tensors, plans[i])
  {
    hide AssignmentOf;
    r := [];
    for i := 0 to |plans|
      invariant |r| == i && forall k :: 0 <= k < i ==> r[k] == AssignmentOf(tensors, plans[k])
    {
      var a := AssignTensorsToPartition(tensors, plans[i]);
      r := r + [a];
    }
  }

  /** How often a partition's assignment lists a tensor. */
  lemma AssignedCount(tensors: seq<string>, plan: Plan, t: string)
    ensures multiset(AssignmentOf(tensors, plan).tensors)[t] == if Matches(t, plan) then multiset(tensors)[t] else 0
  {
    KeptCounts(tensors, t => Matches(t, plan), t);
    SortElements(AtMostText, Kept(tensors, t => Matches(t, plan)));
  }

  lemma TextStep(x: char, a: string, b: string)
    ensures AtMostText([x] + a, [x] + b) == AtMostText(a, b)
  {
    assert ([x] + a)[1..] == a && ([x] + b)[1..] == b;
  }

  lemma {:induction false} BehindTheSame(p: string, a: string, b: string)
    ensures AtMostText(p + a, p + b) == AtMostText(a, b)
  {
    if p == "" {
      assert p + a == a && p + b == b;
    } else {
      hide AtMostText;
      assert p + a == [p[0]] + (p[1..] + a) && p + b == [p[0]] + (p[1..] + b);
      TextStep(p[0], p[1..] + a, p[1..] + b);
      BehindTheSame(p[1..], a, b);
    }
  }

  /** Text is in the order of its first different character; a beginning comes first. */
  lemma TextOrderIs(p: string, a: string, b: string, c: char, d: char)
    ensures AtMostText(p, p + a)
    ensures c < d ==> AtMostText(p + ([c] + a), p + ([d] + b)) && !AtMostText(p + ([d] + b), p + ([c] + a))
  {
    assert AtMostText("", a) && p + "" == p;
    assert c < d ==> AtMostText([c] + a, [d] + b) && !AtMostText([d] + b, [c] + a);
    hide AtMostText;
    BehindTheSame(p, "", a);
    BehindTheSame(p, [c] + a, [d] + b);
    BehindTheSame(p, [d] + b, [c] + a);
  }

  /** Some tensor starts with the prefix. */
  ghost predicate Serves(tensors: seq<string>, prefix: string) {
    exists t :: t in tensors && prefix <= t
  }

  lemma PrefixIsServed(tensors: seq<string>, prefix: string)
    ensures HasPrefix(tensors, prefix) <==> Serves(tensors, prefix)
  {
    if HasPrefix(tensors, prefix) {
      var i :| 0 <= i < |tensors| && prefix <= tensors[i];
      assert tensors[i] in tensors;
    }
    if Serves(tensors, prefix) {
      var t :| t in tensors && prefix <= t;
      var i :| 0 <= i < |tensors| && tensors[i] == t;
      assert prefix <= tensors[i];
    }
  }

  /** An assignment in full: the matching tensors, as often as the file has them, and of the
      plan's names and prefixes those that no tensor answers; each list in the order of text. */
  lemma AssignmentInFull(tensors: seq<string>, plan: Plan, t: string)
    ensures var a := AssignmentOf(tensors, plan);
      && a.partitionId == plan.partitionId
      && multiset(a.tensors)[t] == (if Matches(t, plan) then multiset(tensors)[t] else 0)
      && multiset(a.missingNames)[t] == (if t in tensors then 0 else multiset(plan.names)[t])
      && multiset(a.missingPrefixes)[t]
         == (if Serves(tensors, t) then 0 else multiset(plan.prefixes)[t])
      && SortedBy(AtMostText, a.tensors) && SortedBy(AtMostText, a.missingNames) && SortedBy(AtMostText, a.missingPrefixes)
  {
    TextIsOrder();
    PrefixIsServed(tensors, t);
    KeptCounts(tensors, u => Matches(u, plan), t);
    KeptCounts(plan.names, n => n !in tensors, t);
    KeptCounts(plan.prefixes, p => !HasPrefix(tensors, p), t);
    var x, y, z := Kept(tensors, u => Matches(u, plan)), Kept(plan.names, n => n !in tensors), Kept(plan.prefixes, p => !HasPrefix(tensors, p));
    SortElements(AtMostText, x);
    SortElements(AtMostText, y);
    SortElements(AtMostText, z);
    SortSorts(AtMostText, x);
    SortSorts(AtMostText, y);
    SortSorts(AtMostText, z);
    hide Sort, Kept, Matches, HasPrefix, AtMostText, TotalOrder;
  }

  /** One partition lists the tensor as often as the file does, no other lists it. */
  ghost predicate AssignedOnce(tensors: seq<string>, ps: seq<Partition>, t: string) {
    exists j :: 0 <= j < |ps|
      && multiset(AssignmentOf(tensors, PlanOf(ps[j])).tensors)[t] == multiset(tensors)[t]
      && forall k :: 0 <= k < |ps| && k != j ==> t !in AssignmentOf(tensors, PlanOf(ps[k])).tensors
  }

  lemma OneOwnerAssignedOnce(tensors: seq<string>, ps: seq<Partition>, t: string)
    requires OneOwner(ps, t)
    ensures AssignedOnce(tensors, ps, t)
  {
    hide AssignmentOf, Matches, PlanOf;
    var j :| 0 <= j < |ps| && Matches(t, PlanOf(ps[j]))
      && forall k :: 0 <= k < |ps| && Matches(t, PlanOf(ps[k])) ==> k == j;
    AssignedCount(tensors, PlanOf(ps[j]), t);
    forall k | 0 <= k < |ps| && k != j ensures t !in AssignmentOf(tensors, PlanOf(ps[k])).tensors {
      AssignedCount(tensors, PlanOf(ps[k]), t);
      assert multiset(AssignmentOf(tensors, PlanOf(ps[k])).tensors)[t] == 0;
    }
  }

  /** Over an accepted graph no layer, embedding or head tensor is lost or duplicated. */
  lemma AcceptedGraphAssignsOnce(tensors: seq<string>, ps: seq<Partition>, numLayers: int, layer: int, rest: string)
    requires GraphOk(ps, numLayers) && 0 <= layer < numLayers
    ensures AssignedOnce(tensors, ps, LayerPrefix(layer) + rest)
    ensures AssignedOnce(tensors, ps, EMBEDDING)
    ensures AssignedOnce(tensors, ps, OUTPUT)
  {
    AcceptedGraphOwnsOnce(ps, numLayers, layer, rest);
    hide AssignedOnce, OneOwner, GraphOk;
    OneOwnerAssignedOnce(tensors, ps, LayerPrefix(layer) + rest);
    OneOwnerAssignedOnce(tensors, ps, EMBEDDING);
    OneOwnerAssignedOnce(tensors, ps, OUTPUT);
  }

  /** Accepts exactly two lists with the same tensors, each as often. */
  method TensorSetsEqual(actual: seq<string>, expected: seq<string>) returns (ok: bool)
    ensures ok <==> multiset(actual) == multiset(expected)
  {
    var a, e := Sort(AtMostText, actual), Sort(AtMostText, expected);
    var missing, extra := Difference(AtMostText, e, a), Difference(AtMostText, a, e);
    TextIsOrder();
    SortElements(AtMostText, actual);
    SortElements(AtMostText, expected);
    SortSorts(AtMostText, actual);
    SortSorts(AtMostText, expected);
    hide Sort, Difference, AtMostText;
    DifferenceCounts(AtMostText, e, a);
    DifferenceCounts(AtMostText, a, e);
    NoDifference(multiset(actual), multiset(expected));
    assert missing == [] <==> multiset(missing) == multiset{} by { EmptyBag(missing); }
    assert extra == [] <==> multiset(extra) == multiset{} by { EmptyBag(extra); }
    ok := missing == [] && extra == [];
  }

  lemma EmptyBag(s: seq<string>)
    ensures s == [] <==> multiset(s) == multiset{}
  {
    if s != [] { assert s[0] in multiset(s); }
  }

  lemma NoDifference(a: multiset<string>, b: multiset<string>)
    ensures a - b == multiset{} == b - a <==> a == b
  {
    if a - b == multiset{} && b - a == multiset{} {
      forall x ensures a[x] == b[x] {
        assert (a - b)[x] == 0 && (b - a)[x] == 0;
      }
    }
  }

  /** What a valid shard holds. */
  ghost predicate ShardOk(shard: seq<string>, manifest: seq<string>, plan: Plan) {
    && multiset(shard) == multiset(manifest)
    && (forall t :: t in shard ==> Matches(t, plan))
    && (forall n :: n in plan.names ==> n in shard)
    && (forall i :: 0 <= i < |plan.prefixes| ==> Serves(shard, plan.prefixes[i]))
  }

  lemma {:induction false} NothingKept(names: seq<string>, keep: string -> bool)
    ensures Sort(AtMostText, Kept(names, keep)) == [] <==> forall i :: 0 <= i < |names| ==> !keep(names[i])
  {
    SortElements(AtMostText, Kept(names, keep));
    KeptNone(names, keep);
  }

  lemma {:induction false} KeptNone(names: seq<string>, keep: string -> bool)
    ensures Kept(names, keep) == [] <==> forall i :: 0 <= i < |names| ==> !keep(names[i])
  {
    if names == [] {
    } else {
      var init := names[..|names| - 1];
      KeptNone(init, keep);
      assert forall i :: 0 <= i < |init| ==> init[i] == names[i];
    }
  }

  lemma KeptAll(tensors: seq<string>, plan: Plan)
    ensures multiset(tensors) == multiset(AssignmentOf(tensors, plan).tensors)
       <==> forall t :: t in tensors ==> Matches(t, plan)
  {
    hide AssignmentOf, Matches;
    var kept := AssignmentOf(tensors, plan).tensors;
    forall t ensures multiset(kept)[t] == if Matches(t, plan) then multiset(tensors)[t] else 0 {
      AssignedCount(tensors, plan, t);
    }
    if forall t :: t in tensors ==> Matches(t, plan) {
      forall t ensures multiset(kept)[t] == multiset(tensors)[t] {
        assert t in tensors <==> multiset(tensors)[t] > 0;
      }
    } else {
      var t :| t in tensors && !Matches(t, plan);
      assert multiset(tensors)[t] > 0;
    }
  }

  /** The shard check accepts exactly the valid shards. */
  method ValidateShardTensors(shard: seq<string>, manifest: seq<string>, plan: Plan) returns (ok: bool)
    ensures ok <==> ShardOk(shard, manifest, plan)
  {
    hide Matches, HasPrefix, AssignmentOf, Kept;
    var listed := TensorSetsEqual(shard, manifest);
    if !listed { return false; }
    var a := AssignTensorsToPartition(shard, plan);
    MissingMeansAbsent(shard, plan);
    KeptAll(shard, plan);
    if a.missingNames != [] { return false; }
    if a.missingPrefixes != [] { return false; }
    ok := TensorSetsEqual(shard, a.tensors);
  }

  lemma MissingMeansAbsent(shard: seq<string>, plan: Plan)
    ensures AssignmentOf(shard, plan).missingNames == [] <==> forall n :: n in plan.names ==> n in shard
    ensures AssignmentOf(shard, plan).missingPrefixes == []
       <==> forall i :: 0 <= i < |plan.prefixes| ==> Serves(shard, plan.prefixes[i])
  {
    hide HasPrefix, Matches, Kept, Sort;
    NothingKept(plan.names, n => n !in shard);
    NothingKept(plan.prefixes, p => !HasPrefix(shard, p));
    forall i | 0 <= i < |plan.prefixes|
      ensures HasPrefix(shard, plan.prefixes[i]) <==> Serves(shard, plan.prefixes[i])
    {
      PrefixIsServed(shard, plan.prefixes[i]);
    }
  }

  /** Valid shards of two partitions of an accepted graph have at most the norm in common. */
  lemma ShardsShareOnlyNorm(ps: seq<Partition>, numLayers: int, j: nat, k: nat, t: string,
                            shardJ: seq<string>, manifestJ: seq<string>, shardK: seq<string>, manifestK: seq<string>)
    requires GraphOk(ps, numLayers) && j < k < |ps|
    requires ShardOk(shardJ, manifestJ, PlanOf(ps[j])) && ShardOk(shardK, manifestK, PlanOf(ps[k]))
    requires t in shardJ && t in shardK
    ensures t == OUTPUT_NORM
  {
    SharedTensorIsNorm(ps, numLayers, j, k, t);
  }
}
