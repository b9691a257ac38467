/** The FP16 exporter's replacement of the [1, 14, 0, 0] Reshape of a GridSample
    output by Split and Concat (dev/windows/rife_fp16_io_wrapper.py), when the
    replacement computes the same tensor, and the proof that the whole graph then
    computes the same tensors. */
module WarpReshape {
  import opened Wrappers
  import opened OnnxGraph

  const WARP_RESHAPE_COUNT := 4
  const WARP_SHAPE: seq<int> := [1, 14, 0, 0]

  datatype WarpError =
    | ShapeConsumers(count: nat, node: Name)
    | TargetCount(actual: nat)

  // ---------------------------------------------------------------- one Reshape

  /** The values of the tensor [1, 1] that drives the Split. */
  const ONES := Tensor(INT64, [2], [1, 1])

  function SplitConcat(t: Tensor): Option<Tensor> {
    ConcatTensors(SplitTensor(t, 0, ONES.data), 1)
  }

  /** A batch of two tensors of seven channels each. */
  predicate WarpBatch(t: Tensor, allowZero: bool) {
    && |t.shape| == 4 && t.shape[0] == 2 && t.shape[1] == 7
    && (allowZero ==> t.shape[2] == t.shape[3] == 0)
  }

  lemma {:induction false} DimsFrom(t: Tensor, allowZero: bool, dims: seq<nat>, i: nat)
    requires i <= 4 && |dims| == 4
    requires forall k | 0 <= k < 4 :: ReshapeDim(t, WARP_SHAPE[k], k, allowZero) == Some(dims[k])
    ensures ReshapeDims(t, WARP_SHAPE, i, allowZero) == Some(dims[i..])
    decreases 4 - i
  {
    if i < 4 {
      DimsFrom(t, allowZero, dims, i + 1);
      assert [dims[i]] + dims[i + 1..] == dims[i..];
    }
  }

  lemma Product4(a: nat, b: nat, c: nat, d: nat)
    ensures Product([a, b, c, d]) == a * (b * (c * d))
  {
    assert [a, b, c, d][1..] == [b, c, d] && [b, c, d][1..] == [c, d] && [c, d][1..] == [d] && [d][1..] == [];
    assert Product([d]) == d;
    assert Product([c, d]) == c * d;
  }

  /** One row: a piece is a slice, and two pieces side by side are concatenated. */
  lemma OneRowColumns(data: seq<int>, width: nat, block: nat, offset: nat)
    requires |data| == width && offset + block <= width
    ensures Columns(data, 1, width, block, offset) == data[offset..offset + block]
  {
    forall p | 0 <= p < block
      ensures PieceIndex(width, block, offset, p) == offset + p
    {
      SmallDivMod(p, block);
    }
  }

  lemma OneRowBeside(a: seq<int>, b: seq<int>)
    ensures Beside(a, b, 1, |a|, |b|) == a + b
  {
    forall p | 0 <= p < |a| + |b|
      ensures Beside(a, b, 1, |a|, |b|)[p] == (a + b)[p]
    {
      SmallDivMod(p, |a| + |b|);
    }
  }

  lemma SmallDivMod(p: nat, n: nat)
    requires p < n
    ensures p / n == 0 && p % n == p
  {
  }

  lemma SplitTwo(t: Tensor)
    ensures SplitTensor(t, 0, ONES.data)
         == if |t.shape| > 0 && WellShaped(t) && t.shape[0] == 2 then [Piece(t, 0, 0, 1), Piece(t, 0, 1, 1)] else []
  {
    var sizes: seq<nat> := ONES.data;
    assert sizes[1..] == [1] && sizes[1..][1..] == [];
    assert Sum(sizes[1..]) == 1;
    if |t.shape| > 0 && WellShaped(t) && t.shape[0] == 2 {
      assert SplitPieces(t, 0, 1, sizes[1..]) == [Piece(t, 0, 1, 1)];
    }
  }

  lemma ConcatTwo(a: Tensor, b: Tensor)
    ensures ConcatTensors([a, b], 1) == if Joinable(a, b, 1) then Some(Join(a, b, 1)) else None
  {
    assert [a, b][1..] == [b];
    assert ConcatTensors([b], 1) == Some(b);
  }

  /** What the rewritten nodes compute, as one expression. */
  lemma SplitConcatTwo(t: Tensor)
    ensures SplitConcat(t).Some? ==> |t.shape| > 1 && WellShaped(t) && t.shape[0] == 2
    ensures SplitConcat(t).Some? ==> SplitConcat(t).value.shape == t.shape[0 := 1][1 := 2 * t.shape[1]]
    ensures |t.shape| > 1 && WellShaped(t) && t.shape[0] == 2 ==>
      SplitConcat(t) == ConcatTensors([Piece(t, 0, 0, 1), Piece(t, 0, 1, 1)], 1)
  {
    SplitTwo(t);
    if |t.shape| > 0 && WellShaped(t) && t.shape[0] == 2 {
      ConcatTwo(Piece(t, 0, 0, 1), Piece(t, 0, 1, 1));
    } else {
      assert ConcatTensors([], 1) == None;
    }
  }

  /** The halves of a batch of two are slices of the row-major data. */
  lemma Halves(t: Tensor, n: nat)
    requires WellShaped(t) && |t.shape| > 0 && t.shape[0] == 2 && |t.data| == 2 * n
    ensures Piece(t, 0, 0, 1) == Tensor(t.elemType, t.shape[0 := 1], t.data[..n])
    ensures Piece(t, 0, 1, 1) == Tensor(t.elemType, t.shape[0 := 1], t.data[n..])
    ensures Product(t.shape[0 := 1]) == n
  {
    ProductSplit(t.shape, 0);
    assert t.shape[..0] == [];
    assert Product(t.shape[1..]) == n;
    OneRowColumns(t.data, 2 * n, n, 0);
    OneRowColumns(t.data, 2 * n, n, n);
    assert t.shape[0 := 1][1..] == t.shape[1..];
  }

  lemma JoinHalves(a: Tensor, b: Tensor)
    requires |a.shape| > 1 && a.shape == b.shape && a.shape[0] == 1
    requires WellShaped(a) && WellShaped(b) && a.elemType == b.elemType
    ensures Joinable(a, b, 1)
    ensures Join(a, b, 1) == Tensor(a.elemType, a.shape[1 := 2 * a.shape[1]], a.data + b.data)
  {
    ProductSplit(a.shape, 1);
    assert a.shape[..1] == [1] && Product([1]) == 1 by {
      assert [1][1..] == [];
    }
    assert |a.data| == a.shape[1] * Product(a.shape[2..]) == |b.data|;
    OneRowBeside(a.data, b.data);
  }

  /** On a batch of two, Split and Concat keep the data and fold the batch into
      the channels. */
  lemma SplitConcatFolds(t: Tensor)
    requires WellShaped(t) && |t.shape| > 1 && t.shape[0] == 2
    ensures SplitConcat(t) == Some(Tensor(t.elemType, t.shape[0 := 1][1 := 2 * t.shape[1]], t.data))
  {
    ProductSplit(t.shape, 0);
    assert t.shape[..0] == [];
    var n := Product(t.shape[1..]);
    Halves(t, n);
    var a, b := Piece(t, 0, 0, 1), Piece(t, 0, 1, 1);
    SplitConcatTwo(t);
    ConcatTwo(a, b);
    JoinHalves(a, b);
    assert t.data[..n] + t.data[n..] == t.data;
  }

  lemma ReshapeRank(t: Tensor, allowZero: bool)
    requires ReshapeTensor(t, WARP_SHAPE, allowZero).Some?
    ensures var u := ReshapeTensor(t, WARP_SHAPE, allowZero).value;
      && u.data == t.data && u.elemType == t.elemType
      && |u.shape| == 4 && u.shape[0] == 1 && u.shape[1] == 14
      && (allowZero ==> u.shape[2] == u.shape[3] == 0)
      && (!allowZero ==> |t.shape| >= 4 && u.shape[2] == t.shape[2] && u.shape[3] == t.shape[3])
  {
    if !allowZero {
      if |t.shape| < 4 {
        assert false;
      }
      DimsFrom(t, false, [1, 14, t.shape[2], t.shape[3]], 0);
    } else {
      DimsFrom(t, true, [1, 14, 0, 0], 0);
    }
  }

  /** The rewrite of one Reshape is right exactly when its source is a batch of
      two tensors of seven channels, for all heights, widths and contents. */
  lemma SplitConcatIsReshape(t: Tensor, allowZero: bool)
    requires WellShaped(t) && ReshapeTensor(t, WARP_SHAPE, allowZero).Some?
    ensures SplitConcat(t) == ReshapeTensor(t, WARP_SHAPE, allowZero) <==> WarpBatch(t, allowZero)
  {
    var u := ReshapeTensor(t, WARP_SHAPE, allowZero).value;
    ReshapeRank(t, allowZero);
    if WarpBatch(t, allowZero) {
      SplitConcatFolds(t);
      assert t.shape[0 := 1][1 := 14] == u.shape;
    } else if SplitConcat(t) == Some(u) {
      SplitConcatTwo(t);
      assert false;
    }
  }

  /** A concrete source that the code accepts, because it can be reshaped, and on which
      the rewrite goes wrong: fourteen batches of one channel. */
  lemma SplitConcatDiffers(data: seq<int>)
    requires |data| == 14
    ensures var t := Tensor(FLOAT, [14, 1, 1, 1], data);
      && ReshapeTensor(t, WARP_SHAPE, false) == Some(Tensor(FLOAT, [1, 14, 1, 1], data))
      && SplitConcat(t) != ReshapeTensor(t, WARP_SHAPE, false)
  {
    var t := Tensor(FLOAT, [14, 1, 1, 1], data);
    Product4(14, 1, 1, 1);
    Product4(1, 14, 1, 1);
    DimsFrom(t, false, [1, 14, 1, 1], 0);
    assert [1, 14, 1, 1][0..] == [1, 14, 1, 1];
    SplitConcatIsReshape(t, false);
  }

  /** A warp batch can always be reshaped, so nothing that evaluated before stops
      evaluating. */
  lemma WarpBatchReshapes(t: Tensor)
    requires WellShaped(t) && WarpBatch(t, false)
    ensures ReshapeTensor(t, WARP_SHAPE, false)
         == Some(Tensor(t.elemType, [1, 14, t.shape[2], t.shape[3]], t.data))
  {
    DimsFrom(t, false, [1, 14, t.shape[2], t.shape[3]], 0);
    assert t.shape == [2, 7, t.shape[2], t.shape[3]];
    Product4(2, 7, t.shape[2], t.shape[3]);
    Product4(1, 14, t.shape[2], t.shape[3]);
  }

  // ---------------------------------------------------------------- the whole graph: specification

  datatype Target = Target(source: Name, shape: Name)

  function Producers(nodes: seq<Node>): map<Name, Node> {
    if nodes == [] then map[]
    else
      var n := |nodes| - 1;
      ProducedBy(Producers(nodes[..n]), nodes[n], |nodes[n].outputs|)
  }

  /** The first `count` outputs of a node are recorded over what was there. */
  function ProducedBy(producers: map<Name, Node>, node: Node, count: nat): map<Name, Node>
    requires count <= |node.outputs|
    decreases count
  {
    if count == 0 then producers
    else
      var before := ProducedBy(producers, node, count - 1);
      if node.outputs[count - 1] == "" then before else before[node.outputs[count - 1] := node]
  }

  function GridOutputs(nodes: seq<Node>): set<Name> {
    set i, j | 0 <= i < |nodes| && IsGridSample(nodes[i]) && 0 <= j < |nodes[i].outputs| :: nodes[i].outputs[j]
  }

  predicate IsGridSample(node: Node) {
    node.op.Other? && node.op.opType == "GridSample"
  }

  function ConstantValue(node: Node): Option<Tensor> {
    if node.op.Constant? then node.op.value else None
  }

  /** The nested list [1, 14, 0, 0] has one dimension. */
  predicate IsWarpShape(value: Option<Tensor>) {
    value.Some? && value.value.shape == [4] && value.value.data == WARP_SHAPE
  }

  predicate Matches(producers: map<Name, Node>, gridOutputs: set<Name>, node: Node) {
    && node.op.Reshape? && |node.inputs| == 2 && |node.outputs| == 1
    && node.inputs[0] in gridOutputs
    && node.inputs[1] in producers
    && IsWarpShape(ConstantValue(producers[node.inputs[1]]))
  }

  predicate IsTarget(nodes: seq<Node>, node: Node) {
    Matches(Producers(nodes), GridOutputs(nodes), node)
  }

  function Uses(inputs: seq<Name>, name: Name): nat {
    if inputs == [] then 0 else Uses(inputs[..|inputs| - 1], name) + if inputs[|inputs| - 1] == name then 1 else 0
  }

  function Consumers(nodes: seq<Node>, name: Name): nat {
    if nodes == [] then 0
    else Consumers(nodes[..|nodes| - 1], name) + Uses(nodes[|nodes| - 1].inputs, name)
  }

  /** The targets among the first `count` nodes. */
  function Targets(nodes: seq<Node>, count: nat): map<Name, Target>
    requires count <= |nodes|
  {
    if count == 0 then map[]
    else
      var node := nodes[count - 1];
      if IsTarget(nodes, node)
      then Targets(nodes, count - 1)[node.outputs[0] := Target(node.inputs[0], node.inputs[1])]
      else Targets(nodes, count - 1)
  }

  /** The shape constants of the targets among the first `count` nodes. */
  function Obsolete(nodes: seq<Node>, count: nat): set<Name>
    requires count <= |nodes|
  {
    if count == 0 then {}
    else Obsolete(nodes, count - 1)
         + if IsTarget(nodes, nodes[count - 1]) then {nodes[count - 1].inputs[1]} else {}
  }

  /** No shape constant of the first `count` nodes is shared. */
  predicate SingleConsumers(nodes: seq<Node>, count: nat)
    requires count <= |nodes|
  {
    forall i | 0 <= i < count && IsTarget(nodes, nodes[i]) :: Consumers(nodes, nodes[i].inputs[1]) == 1
  }

  function Decimal(n: nat): string {
    if n < 10 then ["0123456789"[n]] else Decimal(n / 10) + ["0123456789"[n % 10]]
  }

  function SplitName(index: nat): Name {
    "MediaStationWarpBatchSplit" + Decimal(index)
  }

  function SizesName(index: nat): Name {
    SplitName(index) + "Sizes"
  }

  function Batch0(output: Name): Name {
    output + "__batch0"
  }

  function Batch1(output: Name): Name {
    output + "__batch1"
  }

  function SplitNode(index: nat, source: Name, output: Name): Node {
    Node(SplitName(index), Split(0), [source, SizesName(index)], [Batch0(output), Batch1(output)])
  }

  function ConcatNode(index: nat, output: Name): Node {
    Node("MediaStationWarpBatchConcat" + Decimal(index), Concat(1), [Batch0(output), Batch1(output)], [output])
  }

  predicate IsRemoved(node: Node, obsolete: set<Name>) {
    node.op.Constant? && |node.outputs| == 1 && node.outputs[0] in obsolete
  }

  predicate IsReplaced(node: Node, targets: map<Name, Target>, obsolete: set<Name>) {
    !IsRemoved(node, obsolete) && |node.outputs| == 1 && node.outputs[0] in targets
  }

  /** How many of the nodes are replaced. */
  function ReplacedCount(nodes: seq<Node>, targets: map<Name, Target>, obsolete: set<Name>): nat {
    if nodes == [] then 0
    else ReplacedCount(nodes[..|nodes| - 1], targets, obsolete)
         + if IsReplaced(nodes[|nodes| - 1], targets, obsolete) then 1 else 0
  }

  /** What one node becomes; `index` numbers the replacements. */
  function RewrittenNode(node: Node, targets: map<Name, Target>, obsolete: set<Name>, index: nat): seq<Node> {
    if IsRemoved(node, obsolete) then []
    else if IsReplaced(node, targets, obsolete) then
      [SplitNode(index, targets[node.outputs[0]].source, node.outputs[0]), ConcatNode(index, node.outputs[0])]
    else [node]
  }

  function RewrittenNodes(nodes: seq<Node>, targets: map<Name, Target>, obsolete: set<Name>): seq<Node> {
    if nodes == [] then []
    else
      var n := |nodes| - 1;
      RewrittenNodes(nodes[..n], targets, obsolete)
      + RewrittenNode(nodes[n], targets, obsolete, ReplacedCount(nodes, targets, obsolete))
  }

  function SizesInitializers(count: nat): seq<Initializer> {
    seq(count, i requires 0 <= i < count => Initializer(SizesName(i + 1), ONES))
  }

  function WithSplits(g: Graph): Graph {
    var targets, obsolete := Targets(g.nodes, |g.nodes|), Obsolete(g.nodes, |g.nodes|);
    g.(nodes := RewrittenNodes(g.nodes, targets, obsolete),
       initializers := g.initializers + SizesInitializers(ReplacedCount(g.nodes, targets, obsolete)))
  }

  predicate Accepted(nodes: seq<Node>) {
    SingleConsumers(nodes, |nodes|) && |Targets(nodes, |nodes|)| == WARP_RESHAPE_COUNT
  }

  // ---------------------------------------------------------------- the whole graph: algorithm

  method FindProducers(nodes: seq<Node>) returns (producers: map<Name, Node>, gridOutputs: set<Name>)
    ensures producers == Producers(nodes)
    ensures gridOutputs == GridOutputs(nodes)
  {
    producers := map[];
    gridOutputs := {};
    for i := 0 to |nodes|
      invariant producers == Producers(nodes[..i])
      invariant gridOutputs == GridOutputs(nodes[..i])
    {
      assert nodes[..i + 1][..i] == nodes[..i];
      for j := 0 to |nodes[i].outputs|
        invariant producers == ProducedBy(Producers(nodes[..i]), nodes[i], j)
        invariant gridOutputs == GridOutputs(nodes[..i])
          + if IsGridSample(nodes[i]) then set k | 0 <= k < j :: nodes[i].outputs[k] else {}
      {
        if nodes[i].outputs[j] != "" {
          producers := producers[nodes[i].outputs[j] := nodes[i]];
        }
        if IsGridSample(nodes[i]) {
          gridOutputs := gridOutputs + {nodes[i].outputs[j]};
        }
      }
      GridOutputsGrow(nodes, i);
    }
    assert nodes[..|nodes|] == nodes;
  }

  lemma GridOutputsGrow(nodes: seq<Node>, i: nat)
    requires i < |nodes|
    ensures GridOutputs(nodes[..i + 1]) == GridOutputs(nodes[..i])
      + if IsGridSample(nodes[i]) then set k | 0 <= k < |nodes[i].outputs| :: nodes[i].outputs[k] else {}
  {
    var before, after := nodes[..i], nodes[..i + 1];
    assert forall k | 0 <= k < i :: before[k] == after[k];
    assert after[i] == nodes[i];
  }

  method CountConsumers(nodes: seq<Node>, name: Name) returns (count: nat)
    ensures count == Consumers(nodes, name)
  {
    count := 0;
    for i := 0 to |nodes|
      invariant count == Consumers(nodes[..i], name)
    {
      assert nodes[..i + 1][..i] == nodes[..i];
      var inputs := nodes[i].inputs;
      for j := 0 to |inputs|
        invariant count == Consumers(nodes[..i], name) + Uses(inputs[..j], name)
      {
        assert inputs[..j + 1][..j] == inputs[..j];
        if inputs[j] == name {
          count := count + 1;
        }
      }
      assert inputs[..|inputs|] == inputs;
    }
    assert nodes[..|nodes|] == nodes;
  }

  /** The target that shares its shape constant, if there is one, is reported. */
  predicate Explains(nodes: seq<Node>, error: WarpError) {
    match error
    case ShapeConsumers(count, name) =>
      count != 1 && (exists i :: 0 <= i < |nodes| && IsTarget(nodes, nodes[i]) && nodes[i].name == name
                                 && Consumers(nodes, nodes[i].inputs[1]) == count)
    case TargetCount(actual) =>
      SingleConsumers(nodes, |nodes|) && actual == |Targets(nodes, |nodes|)| != WARP_RESHAPE_COUNT
  }

  method FindTargets(nodes: seq<Node>) returns (r: Result<(map<Name, Target>, set<Name>), WarpError>)
    ensures r.Success? <==> Accepted(nodes)
    ensures r.Success? ==> r.value == (Targets(nodes, |nodes|), Obsolete(nodes, |nodes|))
    ensures r.Failure? ==> Explains(nodes, r.error)
  {
    var producers, gridOutputs := FindProducers(nodes);
    var targets: map<Name, Target>, obsolete: set<Name> := map[], {};
    for i := 0 to |nodes|
      invariant targets == Targets(nodes, i)
      invariant obsolete == Obsolete(nodes, i)
      invariant SingleConsumers(nodes, i)
    {
      var node := nodes[i];
      if Matches(producers, gridOutputs, node) {
        assert IsTarget(nodes, nodes[i]);
        var count := CountConsumers(nodes, node.inputs[1]);
        if count != 1 {
          return Failure(ShapeConsumers(count, node.name));
        }
        targets := targets[node.outputs[0] := Target(node.inputs[0], node.inputs[1])];
        obsolete := obsolete + {node.inputs[1]};
      }
    }
    if |targets| != WARP_RESHAPE_COUNT {
      return Failure(TargetCount(|targets|));
    }
    return Success((targets, obsolete));
  }

  lemma SizesStep(count: nat)
    ensures SizesInitializers(count + 1) == SizesInitializers(count) + [Initializer(SizesName(count + 1), ONES)]
  {
  }

  lemma RewriteStep(nodes: seq<Node>, targets: map<Name, Target>, obsolete: set<Name>, i: nat)
    requires i < |nodes|
    ensures ReplacedCount(nodes[..i + 1], targets, obsolete)
         == ReplacedCount(nodes[..i], targets, obsolete) + if IsReplaced(nodes[i], targets, obsolete) then 1 else 0
    ensures RewrittenNodes(nodes[..i + 1], targets, obsolete)
         == RewrittenNodes(nodes[..i], targets, obsolete)
            + RewrittenNode(nodes[i], targets, obsolete, ReplacedCount(nodes[..i + 1], targets, obsolete))
  {
    assert nodes[..i + 1][..i] == nodes[..i];
  }

  method RewriteNodes(nodes: seq<Node>, targets: map<Name, Target>, obsolete: set<Name>)
    returns (rewritten: seq<Node>, initializers: seq<Initializer>, index: nat)
    ensures index == ReplacedCount(nodes, targets, obsolete)
    ensures rewritten == RewrittenNodes(nodes, targets, obsolete)
    ensures initializers == SizesInitializers(index)
  {
    rewritten, initializers, index := [], [], 0;
    for i := 0 to |nodes|
      invariant index == ReplacedCount(nodes[..i], targets, obsolete)
      invariant rewritten == RewrittenNodes(nodes[..i], targets, obsolete)
      invariant initializers == SizesInitializers(index)
    {
      RewriteStep(nodes, targets, obsolete, i);
      var node := nodes[i];
      if IsRemoved(node, obsolete) {
        rewritten := rewritten + [];
      } else if |node.outputs| == 1 && node.outputs[0] in targets {
        SizesStep(index);
        index := index + 1;
        var output := node.outputs[0];
        initializers := initializers + [Initializer(SizesName(index), ONES)];
        rewritten := rewritten + [SplitNode(index, targets[output].source, output), ConcatNode(index, output)];
      } else {
        rewritten := rewritten + [node];
      }
    }
    assert nodes[..|nodes|] == nodes;
  }

  /** The model is changed only once all targets have been accepted. */
  method NormalizeLiteWarpBatchReshapes(model: ModelProto) returns (r: Result<nat, WarpError>)
    modifies model
    ensures r.Success? <==> Accepted(old(model.graph).nodes)
    ensures r.Failure? ==> model.graph == old(model.graph) && Explains(model.graph.nodes, r.error)
    ensures r.Success? ==> model.graph == WithSplits(old(model.graph))
    ensures r.Success? ==> |model.graph.initializers| == |old(model.graph).initializers| + r.value
  {
    var graph := model.graph;
    var found := FindTargets(graph.nodes);
    if found.Failure? {
      return Failure(found.error);
    }
    var (targets, obsolete) := found.value;
    var rewritten, initializers, index := RewriteNodes(graph.nodes, targets, obsolete);
    model.graph := graph.(nodes := rewritten, initializers := graph.initializers + initializers);
    return Success(index);
  }

  // ---------------------------------------------------------------- what the passes found

  lemma {:induction false} ProducedByOrigin(producers: map<Name, Node>, node: Node, count: nat, name: Name)
    requires count <= |node.outputs| && name in ProducedBy(producers, node, count)
    ensures (name in node.outputs && name != "" && ProducedBy(producers, node, count)[name] == node)
         || (name in producers && ProducedBy(producers, node, count)[name] == producers[name])
    decreases count
  {
    if count > 0 && node.outputs[count - 1] != name {
      ProducedByOrigin(producers, node, count - 1, name);
    } else if count > 0 && name == "" {
      ProducedByOrigin(producers, node, count - 1, name);
    }
  }

  lemma {:induction false} ProducersOrigin(nodes: seq<Node>, name: Name)
    requires name in Producers(nodes)
    ensures exists i :: 0 <= i < |nodes| && Producers(nodes)[name] == nodes[i] && name in nodes[i].outputs
  {
    var n := |nodes| - 1;
    ProducedByOrigin(Producers(nodes[..n]), nodes[n], |nodes[n].outputs|, name);
    if !(name in nodes[n].outputs && Producers(nodes)[name] == nodes[n]) {
      ProducersOrigin(nodes[..n], name);
      var i :| 0 <= i < n && Producers(nodes[..n])[name] == nodes[..n][i] && name in nodes[..n][i].outputs;
      assert nodes[..n][i] == nodes[i];
    }
  }

  lemma {:induction false} TargetsOrigin(nodes: seq<Node>, count: nat, output: Name)
    requires count <= |nodes| && output in Targets(nodes, count)
    ensures exists i :: 0 <= i < count && IsTarget(nodes, nodes[i]) && nodes[i].outputs[0] == output
                        && Targets(nodes, count)[output] == Target(nodes[i].inputs[0], nodes[i].inputs[1])
  {
    if !(IsTarget(nodes, nodes[count - 1]) && nodes[count - 1].outputs[0] == output) {
      TargetsOrigin(nodes, count - 1, output);
    }
  }

  lemma {:induction false} TargetsComplete(nodes: seq<Node>, count: nat, i: nat)
    requires i < count <= |nodes| && IsTarget(nodes, nodes[i])
    ensures nodes[i].outputs[0] in Targets(nodes, count)
    ensures nodes[i].inputs[1] in Obsolete(nodes, count)
  {
    if i < count - 1 {
      TargetsComplete(nodes, count - 1, i);
    }
  }

  lemma {:induction false} ObsoleteOrigin(nodes: seq<Node>, count: nat, shape: Name)
    requires count <= |nodes| && shape in Obsolete(nodes, count)
    ensures exists i :: 0 <= i < count && IsTarget(nodes, nodes[i]) && nodes[i].inputs[1] == shape
  {
    if !(IsTarget(nodes, nodes[count - 1]) && nodes[count - 1].inputs[1] == shape) {
      ObsoleteOrigin(nodes, count - 1, shape);
    }
  }

  lemma {:induction false} UsedAtLeastOnce(inputs: seq<Name>, name: Name, j: nat)
    requires j < |inputs| && inputs[j] == name
    ensures Uses(inputs, name) >= 1
    ensures forall k | 0 <= k < |inputs| && k != j && inputs[k] == name :: Uses(inputs, name) >= 2
  {
    var n := |inputs| - 1;
    forall k | 0 <= k < |inputs| && k != j && inputs[k] == name
      ensures Uses(inputs, name) >= 2
    {
      if k < n && j < n {
        UsedAtLeastOnce(inputs[..n], name, j);
        assert inputs[..n][k] == name;
      } else if k < n {
        UsedAtLeastOnce(inputs[..n], name, k);
      } else {
        UsedAtLeastOnce(inputs[..n], name, j);
      }
    }
    if j < n {
      UsedAtLeastOnce(inputs[..n], name, j);
    }
  }

  lemma {:induction false} ConsumedAt(nodes: seq<Node>, name: Name, i: nat)
    requires i < |nodes|
    ensures Consumers(nodes, name) >= Uses(nodes[i].inputs, name)
    ensures forall k | 0 <= k < |nodes| && k != i ::
      Consumers(nodes, name) >= Uses(nodes[i].inputs, name) + Uses(nodes[k].inputs, name)
  {
    var n := |nodes| - 1;
    if i < n {
      ConsumedAt(nodes[..n], name, i);
      assert forall k | 0 <= k < n :: nodes[..n][k] == nodes[k];
    } else {
      forall k | 0 <= k < |nodes| && k != i
        ensures Consumers(nodes, name) >= Uses(nodes[i].inputs, name) + Uses(nodes[k].inputs, name)
      {
        ConsumedAt(nodes[..n], name, k);
        assert nodes[..n][k] == nodes[k];
      }
    }
  }

  /** A name consumed once is consumed at one place. */
  lemma ConsumedOnce(nodes: seq<Node>, name: Name, i: nat, j: nat, k: nat, l: nat)
    requires Consumers(nodes, name) == 1 && i < |nodes| && k < |nodes|
    requires j < |nodes[i].inputs| && l < |nodes[k].inputs|
    requires nodes[i].inputs[j] == name && nodes[k].inputs[l] == name
    ensures i == k && j == l
  {
    UsedAtLeastOnce(nodes[i].inputs, name, j);
    UsedAtLeastOnce(nodes[k].inputs, name, l);
    ConsumedAt(nodes, name, i);
  }

  /** A tensor that some GridSample node computes. */
  predicate IsSampled(nodes: seq<Node>, name: Name) {
    exists i | 0 <= i < |nodes| :: nodes[i].op.Other? && nodes[i].op.opType == "GridSample" && name in nodes[i].outputs
  }

  /** What is replaced: exactly a Reshape of what a GridSample node computes to the constant
      list [1, 14, 0, 0]. */
  lemma TargetIff(nodes: seq<Node>, node: Node)
    ensures IsTarget(nodes, node) <==>
      && node.op.Reshape? && |node.inputs| == 2 && |node.outputs| == 1
      && IsSampled(nodes, node.inputs[0])
      && node.inputs[1] in Producers(nodes)
      && exists elemType :: Producers(nodes)[node.inputs[1]].op == Constant(Some(Tensor(elemType, [4], [1, 14, 0, 0])))
  {
    if |node.inputs| == 2 {
      SampledIff(nodes, node.inputs[0]);
      if node.inputs[1] in Producers(nodes) {
        WarpShapeIff(Producers(nodes)[node.inputs[1]]);
      }
    }
  }

  lemma SampledIff(nodes: seq<Node>, name: Name)
    ensures name in GridOutputs(nodes) <==> IsSampled(nodes, name)
  {
    if IsSampled(nodes, name) {
      var i :| 0 <= i < |nodes| && nodes[i].op.Other? && nodes[i].op.opType == "GridSample" && name in nodes[i].outputs;
      var j :| 0 <= j < |nodes[i].outputs| && nodes[i].outputs[j] == name;
      assert IsGridSample(nodes[i]) && nodes[i].outputs[j] in GridOutputs(nodes);
    }
  }

  lemma WarpShapeIff(node: Node)
    ensures IsWarpShape(ConstantValue(node)) <==>
              exists elemType :: node.op == Constant(Some(Tensor(elemType, [4], [1, 14, 0, 0])))
  {
    if IsWarpShape(ConstantValue(node)) {
      assert node.op == Constant(Some(Tensor(node.op.value.value.elemType, [4], [1, 14, 0, 0])));
    }
  }

  // ---------------------------------------------------------------- the plan for each node

  function GeneratedNames(g: Graph): set<Name> {
    (set i | 1 <= i <= WARP_RESHAPE_COUNT :: SizesName(i))
    + (set o | o in Targets(g.nodes, |g.nodes|) :: Batch0(o))
    + (set o | o in Targets(g.nodes, |g.nodes|) :: Batch1(o))
  }

  predicate MentionsNone(node: Node, names: set<Name>) {
    (forall n | n in node.inputs :: n !in names) && (forall n | n in node.outputs :: n !in names)
  }

  /** The graph is single-assignment and ordered, Constant and Reshape have the one
      output the operator specification gives them, and the generated names are new. */
  predicate WellFormed(g: Graph) {
    && Ordered(g.nodes, InitiallyKnown(g))
    && (forall i | 0 <= i < |g.nodes| && (g.nodes[i].op.Constant? || g.nodes[i].op.Reshape?) ::
          |g.nodes[i].outputs| == 1 && g.nodes[i].outputs[0] != "")
    && (forall i | 0 <= i < |g.nodes| :: MentionsNone(g.nodes[i], GeneratedNames(g)))
    && InitiallyKnown(g) !! GeneratedNames(g)
  }

  /** A node that is removed is a warp shape; one that is replaced is a target; any
      other node does not touch the warp shapes. */
  predicate Planned(g: Graph, node: Node) {
    var targets, obsolete := Targets(g.nodes, |g.nodes|), Obsolete(g.nodes, |g.nodes|);
    if IsRemoved(node, obsolete) then node.op.Constant? && IsWarpShape(node.op.value) && node.outputs[0] != ""
    else if IsReplaced(node, targets, obsolete) then
      && IsTarget(g.nodes, node) && node.outputs[0] != "" && node.outputs[0] !in obsolete
      && targets[node.outputs[0]] == Target(node.inputs[0], node.inputs[1])
      && node.inputs[0] !in obsolete && node.inputs[1] in obsolete
    else MentionsNone(node, obsolete)
  }

  lemma ShapeOfTarget(g: Graph, k: nat)
    requires WellFormed(g) && k < |g.nodes| && IsTarget(g.nodes, g.nodes[k])
    ensures g.nodes[k].inputs[1] != ""
    ensures exists i :: 0 <= i < |g.nodes| && g.nodes[i].op.Constant? && IsWarpShape(g.nodes[i].op.value)
                        && g.nodes[i].outputs == [g.nodes[k].inputs[1]]
  {
    var shape := g.nodes[k].inputs[1];
    ProducersOrigin(g.nodes, shape);
    var i :| 0 <= i < |g.nodes| && Producers(g.nodes)[shape] == g.nodes[i] && shape in g.nodes[i].outputs;
    assert g.nodes[i].outputs == [shape];
  }

  /** Only the Constant itself defines a shape that becomes obsolete. */
  lemma ObsoleteProducer(g: Graph, i: nat, shape: Name)
    requires WellFormed(g) && i < |g.nodes|
    requires shape in Obsolete(g.nodes, |g.nodes|) && shape in g.nodes[i].outputs
    ensures g.nodes[i].op.Constant? && IsWarpShape(g.nodes[i].op.value) && g.nodes[i].outputs == [shape]
  {
    ObsoleteOrigin(g.nodes, |g.nodes|, shape);
    var k :| 0 <= k < |g.nodes| && IsTarget(g.nodes, g.nodes[k]) && g.nodes[k].inputs[1] == shape;
    ShapeOfTarget(g, k);
    var c :| 0 <= c < |g.nodes| && g.nodes[c].op.Constant? && IsWarpShape(g.nodes[c].op.value)
      && g.nodes[c].outputs == [shape];
    SameOutputSameNode(g.nodes, InitiallyKnown(g), i, c, shape);
  }

  lemma ObsoleteConsumer(g: Graph, i: nat, j: nat)
    requires WellFormed(g) && Accepted(g.nodes) && i < |g.nodes| && j < |g.nodes[i].inputs|
    requires g.nodes[i].inputs[j] in Obsolete(g.nodes, |g.nodes|)
    ensures IsTarget(g.nodes, g.nodes[i]) && j == 1
  {
    var shape := g.nodes[i].inputs[j];
    ObsoleteOrigin(g.nodes, |g.nodes|, shape);
    var k :| 0 <= k < |g.nodes| && IsTarget(g.nodes, g.nodes[k]) && g.nodes[k].inputs[1] == shape;
    ConsumedOnce(g.nodes, shape, i, j, k, 1);
  }

  lemma ReplacedIsTarget(g: Graph, i: nat)
    requires WellFormed(g) && Accepted(g.nodes) && i < |g.nodes|
    requires |g.nodes[i].outputs| == 1 && g.nodes[i].outputs[0] in Targets(g.nodes, |g.nodes|)
    ensures IsTarget(g.nodes, g.nodes[i]) && g.nodes[i].outputs[0] != ""
    ensures Targets(g.nodes, |g.nodes|)[g.nodes[i].outputs[0]] == Target(g.nodes[i].inputs[0], g.nodes[i].inputs[1])
  {
    var o := g.nodes[i].outputs[0];
    TargetsOrigin(g.nodes, |g.nodes|, o);
    var k :| 0 <= k < |g.nodes| && IsTarget(g.nodes, g.nodes[k]) && g.nodes[k].outputs[0] == o
      && Targets(g.nodes, |g.nodes|)[o] == Target(g.nodes[k].inputs[0], g.nodes[k].inputs[1]);
    SameOutputSameNode(g.nodes, InitiallyKnown(g), i, k, o);
  }

  lemma EveryNodePlanned(g: Graph, i: nat)
    requires WellFormed(g) && Accepted(g.nodes) && i < |g.nodes|
    ensures Planned(g, g.nodes[i])
    ensures IsTarget(g.nodes, g.nodes[i]) <==>
      IsReplaced(g.nodes[i], Targets(g.nodes, |g.nodes|), Obsolete(g.nodes, |g.nodes|))
    ensures IsRemoved(g.nodes[i], Obsolete(g.nodes, |g.nodes|)) <==>
      exists o :: o in g.nodes[i].outputs && o in Obsolete(g.nodes, |g.nodes|)
  {
    var node := g.nodes[i];
    var targets, obsolete := Targets(g.nodes, |g.nodes|), Obsolete(g.nodes, |g.nodes|);
    forall o | o in node.outputs && o in obsolete
      ensures node.op.Constant? && IsWarpShape(node.op.value) && node.outputs == [o]
    {
      ObsoleteProducer(g, i, o);
    }
    if IsTarget(g.nodes, node) {
      TargetsComplete(g.nodes, |g.nodes|, i);
      ReplacedIsTarget(g, i);
      if node.inputs[0] in obsolete {
        ObsoleteConsumer(g, i, 0);
        assert false;
      }
    } else {
      if |node.outputs| == 1 && node.outputs[0] in targets {
        ReplacedIsTarget(g, i);
        assert false;
      }
      forall n | n in node.inputs
        ensures n !in obsolete
      {
        var j :| 0 <= j < |node.inputs| && node.inputs[j] == n;
        if n in obsolete {
          ObsoleteConsumer(g, i, j);
          assert false;
        }
      }
    }
  }

  // ---------------------------------------------------------------- the meaning is kept

  /** `env` is reached by the original nodes and `env'` by the rewritten ones. */
  ghost predicate Simulates(g: Graph, known: set<Name>, env: Env, env': Env) {
    var obsolete, generated := Obsolete(g.nodes, |g.nodes|), GeneratedNames(g);
    && (forall n | n !in obsolete && n !in generated :: Lookup(env, n) == Lookup(env', n))
    && (forall n | n in obsolete && n in known :: Lookup(env, n).Some? && Lookup(env, n).value.data == WARP_SHAPE)
    && (forall i | 1 <= i <= WARP_RESHAPE_COUNT :: Lookup(env', SizesName(i)) == Some(ONES))
  }

  /** The source of every replaced Reshape is a batch of two times seven channels. */
  predicate WarpBatches(g: Graph, env: Env) {
    forall i | 0 <= i < |g.nodes| && IsTarget(g.nodes, g.nodes[i]) ::
      var t := Lookup(env, g.nodes[i].inputs[0]);
      t.Some? && WellShaped(t.value) && WarpBatch(t.value, g.nodes[i].op.allowZero)
  }

  lemma RemovedStep(g: Graph, known: set<Name>, env: Env, env': Env, node: Node, meaning: Meaning)
    requires Simulates(g, known, env, env') && Planned(g, node) && IsRemoved(node, Obsolete(g.nodes, |g.nodes|))
    ensures Simulates(g, known + Outputs(node.outputs), Execute(env, node, meaning), env')
  {
    var c, value := node.outputs[0], node.op.value.value;
    assert Apply(node.op, Args(env, node.inputs), meaning) == [value];
    assert node.outputs == [c];
    OneBinding(env, c, value);
  }

  lemma OtherStep(g: Graph, known: set<Name>, env: Env, env': Env, node: Node, meaning: Meaning)
    requires Simulates(g, known, env, env')
    requires MentionsNone(node, Obsolete(g.nodes, |g.nodes|)) && MentionsNone(node, GeneratedNames(g))
    ensures Simulates(g, known + Outputs(node.outputs), Execute(env, node, meaning), Execute(env', node, meaning))
  {
    var obsolete, generated := Obsolete(g.nodes, |g.nodes|), GeneratedNames(g);
    assert Args(env, node.inputs) == Args(env', node.inputs);
    var values := Apply(node.op, Args(env, node.inputs), meaning);
    forall n
      ensures n !in obsolete && n !in generated ==>
        Lookup(Bind(env, node.outputs, values), n) == Lookup(Bind(env', node.outputs, values), n)
      ensures n in obsolete ==> Lookup(Bind(env, node.outputs, values), n) == Lookup(env, n)
      ensures n in generated ==> Lookup(Bind(env', node.outputs, values), n) == Lookup(env', n)
    {
      if n !in obsolete && n !in generated {
        BindAgree(env, env', node.outputs, values, n);
      }
      if n in obsolete {
        BindOther(env, node.outputs, values, n);
      }
      if n in generated {
        BindOther(env', node.outputs, values, n);
      }
    }
  }

  lemma NamesDiffer(output: Name)
    ensures Batch0(output) != Batch1(output) && Batch0(output) != "" && Batch1(output) != ""
  {
    assert Batch0(output)[|output| + 7] == '0' && Batch1(output)[|output| + 7] == '1';
  }

  lemma SizesDiffer(i: nat, output: Name)
    ensures SizesName(i) != Batch0(output) && SizesName(i) != Batch1(output)
  {
    var last := |SplitName(i)| + 4;
    assert SizesName(i)[last] == 's';
    assert Batch0(output)[|output| + 7] == '0' && Batch1(output)[|output| + 7] == '1';
  }

  /** Split and Concat bind two generated names and the target's output. */
  lemma SplitConcatExecutes(env: Env, index: nat, source: Name, output: Name, t: Tensor, u: Tensor, meaning: Meaning)
    returns (p0: Tensor, p1: Tensor)
    requires Lookup(env, source) == Some(t) && Lookup(env, SizesName(index)) == Some(ONES)
    requires SplitConcat(t) == Some(u) && output != ""
    ensures Eval([SplitNode(index, source, output), ConcatNode(index, output)], env, meaning)
         == env[Batch0(output) := p0][Batch1(output) := p1][output := u]
  {
    var split, concat := SplitNode(index, source, output), ConcatNode(index, output);
    NamesDiffer(output);
    SplitTwo(t);
    SplitConcatTwo(t);
    p0, p1 := Piece(t, 0, 0, 1), Piece(t, 0, 1, 1);
    assert Args(env, split.inputs) == [Some(t), Some(ONES)];
    assert Apply(split.op, Args(env, split.inputs), meaning) == [p0, p1];
    TwoBindings(env, Batch0(output), Batch1(output), p0, p1);
    var env1 := env[Batch0(output) := p0][Batch1(output) := p1];
    assert Execute(env, split, meaning) == env1;
    assert Args(env1, concat.inputs) == [Some(p0), Some(p1)];
    assert Values(Args(env1, concat.inputs)) == [p0, p1];
    assert Apply(concat.op, Args(env1, concat.inputs), meaning) == [u];
    OneBinding(env1, output, u);
    var both := [split, concat];
    assert both[1..] == [concat] && [concat][1..] == [];
    assert Eval(both, env, meaning) == Eval([concat], env1, meaning) == Execute(env1, concat, meaning);
  }

  lemma OneBinding(env: Env, name: Name, value: Tensor)
    requires name != ""
    ensures Bind(env, [name], [value]) == env[name := value]
  {
    assert [name][1..] == [] && [value][1..] == [];
  }

  lemma TwoBindings(env: Env, name0: Name, name1: Name, value0: Tensor, value1: Tensor)
    requires name0 != "" && name1 != ""
    ensures Bind(env, [name0, name1], [value0, value1]) == env[name0 := value0][name1 := value1]
  {
    assert [name0, name1][1..] == [name1] && [value0, value1][1..] == [value1];
    OneBinding(env[name0 := value0], name1, value1);
  }

  lemma ReshapeExecutes(env: Env, node: Node, t: Tensor, shape: Tensor, u: Tensor, meaning: Meaning)
    requires node.op.Reshape? && |node.inputs| == 2 && |node.outputs| == 1 && node.outputs[0] != ""
    requires Lookup(env, node.inputs[0]) == Some(t) && Lookup(env, node.inputs[1]) == Some(shape)
    requires ReshapeTensor(t, shape.data, node.op.allowZero) == Some(u)
    ensures Execute(env, node, meaning) == env[node.outputs[0] := u]
  {
    assert Args(env, node.inputs) == [Some(t), Some(shape)];
    assert Apply(node.op, Args(env, node.inputs), meaning) == [u];
    assert node.outputs == [node.outputs[0]];
    OneBinding(env, node.outputs[0], u);
  }

  lemma ReplacedStep(g: Graph, known: set<Name>, env: Env, env': Env, node: Node, index: nat, t: Tensor,
                     meaning: Meaning)
    requires Simulates(g, known, env, env') && 1 <= index <= WARP_RESHAPE_COUNT
    requires node.op.Reshape? && |node.inputs| == 2 && |node.outputs| == 1 && node.outputs[0] != ""
    requires node.outputs[0] !in Obsolete(g.nodes, |g.nodes|) && node.outputs[0] in Targets(g.nodes, |g.nodes|)
    requires MentionsNone(node, GeneratedNames(g)) && node.inputs[0] !in Obsolete(g.nodes, |g.nodes|)
    requires node.inputs[1] in known && node.inputs[1] in Obsolete(g.nodes, |g.nodes|)
    requires Lookup(env, node.inputs[0]) == Some(t) && WellShaped(t) && WarpBatch(t, node.op.allowZero)
    ensures Simulates(g, known + {node.outputs[0]}, Execute(env, node, meaning),
                      Eval([SplitNode(index, node.inputs[0], node.outputs[0]), ConcatNode(index, node.outputs[0])],
                           env', meaning))
  {
    var source, shape, output := node.inputs[0], node.inputs[1], node.outputs[0];
    var u := Tensor(t.elemType, [1, 14, t.shape[2], t.shape[3]], t.data);
    ReshapesTo(t, node.op.allowZero);
    ReshapeExecutes(env, node, t, Lookup(env, shape).value, u, meaning);
    var p0, p1 := SplitConcatExecutes(env', index, source, output, t, u, meaning);
    SizesAreKept(g, output);
    OutputBound(g, known, env, env', output, p0, p1, u);
  }

  lemma SizesAreKept(g: Graph, output: Name)
    requires output !in GeneratedNames(g) && output in Targets(g.nodes, |g.nodes|)
    ensures Batch0(output) in GeneratedNames(g) && Batch1(output) in GeneratedNames(g)
    ensures forall i | 1 <= i <= WARP_RESHAPE_COUNT ::
      SizesName(i) != Batch0(output) && SizesName(i) != Batch1(output) && SizesName(i) != output
  {
    forall i | 1 <= i <= WARP_RESHAPE_COUNT
      ensures SizesName(i) != Batch0(output) && SizesName(i) != Batch1(output) && SizesName(i) != output
    {
      SizesDiffer(i, output);
      assert SizesName(i) in GeneratedNames(g);
    }
  }

  lemma OutputBound(g: Graph, known: set<Name>, env: Env, env': Env, output: Name, p0: Tensor, p1: Tensor, u: Tensor)
    requires Simulates(g, known, env, env')
    requires output !in Obsolete(g.nodes, |g.nodes|) && output !in GeneratedNames(g)
    requires Batch0(output) in GeneratedNames(g) && Batch1(output) in GeneratedNames(g)
    requires forall i | 1 <= i <= WARP_RESHAPE_COUNT ::
      SizesName(i) != Batch0(output) && SizesName(i) != Batch1(output) && SizesName(i) != output
    ensures Simulates(g, known + {output}, env[output := u],
                      env'[Batch0(output) := p0][Batch1(output) := p1][output := u])
  {
    var obsolete, generated := Obsolete(g.nodes, |g.nodes|), GeneratedNames(g);
    var next, next' := env[output := u], env'[Batch0(output) := p0][Batch1(output) := p1][output := u];
    forall n | n !in obsolete && n !in generated
      ensures Lookup(next, n) == Lookup(next', n)
    {
    }
    forall n | n in obsolete && n in known + {output}
      ensures Lookup(next, n) == Lookup(env, n) && n in known
    {
    }
    forall i | 1 <= i <= WARP_RESHAPE_COUNT
      ensures Lookup(next', SizesName(i)) == Lookup(env', SizesName(i))
    {
    }
  }

  lemma ReshapesTo(t: Tensor, allowZero: bool)
    requires WellShaped(t) && WarpBatch(t, allowZero)
    ensures ReshapeTensor(t, WARP_SHAPE, allowZero) == SplitConcat(t)
         == Some(Tensor(t.elemType, [1, 14, t.shape[2], t.shape[3]], t.data))
  {
    SplitConcatFolds(t);
    assert t.shape[0 := 1][1 := 14] == [1, 14, t.shape[2], t.shape[3]];
    WarpBatchReshapes(t);
    if allowZero {
      DimsFrom(t, true, [1, 14, 0, 0], 0);
    }
  }

  /** `index` numbers node n if it is replaced. */
  function IndexAt(g: Graph, n: nat): nat
    requires n < |g.nodes|
  {
    ReplacedCount(g.nodes[..n + 1], Targets(g.nodes, |g.nodes|), Obsolete(g.nodes, |g.nodes|))
  }

  function RewrittenAt(g: Graph, n: nat): seq<Node>
    requires n < |g.nodes|
  {
    RewrittenNode(g.nodes[n], Targets(g.nodes, |g.nodes|), Obsolete(g.nodes, |g.nodes|), IndexAt(g, n))
  }

  function KnownAt(g: Graph, n: nat): set<Name>
    requires n <= |g.nodes|
  {
    FinallyKnown(g.nodes[..n], InitiallyKnown(g))
  }

  lemma ReplacedCase(g: Graph, n: nat, env: Env, env': Env, meaning: Meaning)
    requires WellFormed(g) && Accepted(g.nodes) && n < |g.nodes|
    requires WarpBatches(g, Eval(g.nodes[n..], env, meaning)) && Simulates(g, KnownAt(g, n), env, env')
    requires IsReplaced(g.nodes[n], Targets(g.nodes, |g.nodes|), Obsolete(g.nodes, |g.nodes|))
    ensures Simulates(g, KnownAt(g, n) + Outputs(g.nodes[n].outputs), Execute(env, g.nodes[n], meaning),
                      Eval(RewrittenAt(g, n), env', meaning))
  {
    var node := g.nodes[n];
    EveryNodePlanned(g, n);
    assert IsTarget(g.nodes, g.nodes[n]);
    ShapeOfTarget(g, n);
    var t := Lookup(Eval(g.nodes[n..], env, meaning), node.inputs[0]);
    TargetInputsKnown(g, n);
    OrderedAt(g.nodes, InitiallyKnown(g), n);
    KnownIsKept(g.nodes[n..], KnownAt(g, n), env, meaning, node.inputs[0]);
    ReplacedIndex(g, n);
    assert node.outputs == [node.outputs[0]] && Outputs(node.outputs) == {node.outputs[0]};
    ReplacedStep(g, KnownAt(g, n), env, env', node, IndexAt(g, n), t.value, meaning);
  }

  lemma TargetInputsKnown(g: Graph, n: nat)
    requires WellFormed(g) && n < |g.nodes| && IsTarget(g.nodes, g.nodes[n])
    ensures forall j | 0 <= j < |g.nodes[n].inputs| && g.nodes[n].inputs[j] != "" ::
      g.nodes[n].inputs[j] in KnownAt(g, n)
  {
    OrderedAt(g.nodes, InitiallyKnown(g), n);
    assert g.nodes[n..][0] == g.nodes[n];
  }

  lemma NotReplacedCase(g: Graph, n: nat, env: Env, env': Env, meaning: Meaning)
    requires WellFormed(g) && Accepted(g.nodes) && n < |g.nodes| && Simulates(g, KnownAt(g, n), env, env')
    requires !IsReplaced(g.nodes[n], Targets(g.nodes, |g.nodes|), Obsolete(g.nodes, |g.nodes|))
    ensures Simulates(g, KnownAt(g, n) + Outputs(g.nodes[n].outputs), Execute(env, g.nodes[n], meaning),
                      Eval(RewrittenAt(g, n), env', meaning))
  {
    var node := g.nodes[n];
    EveryNodePlanned(g, n);
    if IsRemoved(node, Obsolete(g.nodes, |g.nodes|)) {
      assert RewrittenAt(g, n) == [];
      RemovedStep(g, KnownAt(g, n), env, env', node, meaning);
    } else {
      OtherStep(g, KnownAt(g, n), env, env', node, meaning);
      assert RewrittenAt(g, n) == [node];
      assert [node][1..] == [];
      assert Eval([node], env', meaning) == Execute(env', node, meaning);
    }
  }

  lemma KnownNext(g: Graph, n: nat)
    requires WellFormed(g) && n < |g.nodes|
    ensures KnownAt(g, n + 1) == KnownAt(g, n) + Outputs(g.nodes[n].outputs)
  {
    OrderedAt(g.nodes, InitiallyKnown(g), n);
  }

  /** One more node of the original graph and what it became. */
  lemma NodeStep(g: Graph, n: nat, env: Env, env': Env, meaning: Meaning)
    requires WellFormed(g) && Accepted(g.nodes) && n < |g.nodes|
    requires WarpBatches(g, Eval(g.nodes[n..], env, meaning)) && Simulates(g, KnownAt(g, n), env, env')
    ensures Simulates(g, KnownAt(g, n + 1), Execute(env, g.nodes[n], meaning), Eval(RewrittenAt(g, n), env', meaning))
  {
    KnownNext(g, n);
    if IsReplaced(g.nodes[n], Targets(g.nodes, |g.nodes|), Obsolete(g.nodes, |g.nodes|)) {
      ReplacedCase(g, n, env, env', meaning);
    } else {
      NotReplacedCase(g, n, env, env', meaning);
    }
  }

  // ---------------------------------------------------------------- counting

  /** The replacements are numbered from 1 to the expected count. */
  lemma ReplacedIndex(g: Graph, n: nat)
    requires WellFormed(g) && Accepted(g.nodes) && n < |g.nodes|
    requires IsReplaced(g.nodes[n], Targets(g.nodes, |g.nodes|), Obsolete(g.nodes, |g.nodes|))
    ensures 1 <= IndexAt(g, n) <= WARP_RESHAPE_COUNT
  {
    ReplacedAreTargets(g, n + 1);
    TargetsGrow(g.nodes, n + 1);
    assert g.nodes[..n + 1][n] == g.nodes[n];
  }

  lemma {:induction false} TargetsGrow(nodes: seq<Node>, n: nat)
    requires n <= |nodes|
    ensures |Targets(nodes, n)| <= |Targets(nodes, |nodes|)|
    decreases |nodes| - n
  {
    if n < |nodes| {
      TargetsGrow(nodes, n + 1);
    }
  }

  lemma NewTarget(g: Graph, n: nat)
    requires WellFormed(g) && Accepted(g.nodes) && n < |g.nodes| && IsTarget(g.nodes, g.nodes[n])
    ensures g.nodes[n].outputs[0] !in Targets(g.nodes, n)
    ensures g.nodes[n].inputs[1] !in Obsolete(g.nodes, n)
  {
    var o, shape := g.nodes[n].outputs[0], g.nodes[n].inputs[1];
    if o in Targets(g.nodes, n) {
      TargetsOrigin(g.nodes, n, o);
      var k :| 0 <= k < n && IsTarget(g.nodes, g.nodes[k]) && g.nodes[k].outputs[0] == o;
      SameOutputSameNode(g.nodes, InitiallyKnown(g), k, n, o);
      assert false;
    }
    if shape in Obsolete(g.nodes, n) {
      ObsoleteOrigin(g.nodes, n, shape);
      var k :| 0 <= k < n && IsTarget(g.nodes, g.nodes[k]) && g.nodes[k].inputs[1] == shape;
      ConsumedOnce(g.nodes, shape, k, 1, n, 1);
      assert false;
    }
  }

  /** Targets share neither outputs nor shapes, and are what gets replaced. */
  predicate TargetsDistinct(nodes: seq<Node>) {
    forall i | 0 <= i < |nodes| ::
      && (IsTarget(nodes, nodes[i]) ==>
            nodes[i].outputs[0] !in Targets(nodes, i) && nodes[i].inputs[1] !in Obsolete(nodes, i))
      && (IsReplaced(nodes[i], Targets(nodes, |nodes|), Obsolete(nodes, |nodes|)) <==> IsTarget(nodes, nodes[i]))
  }

  lemma TargetsAreDistinct(g: Graph)
    requires WellFormed(g) && Accepted(g.nodes)
    ensures TargetsDistinct(g.nodes)
  {
    forall i | 0 <= i < |g.nodes|
      ensures IsTarget(g.nodes, g.nodes[i]) ==>
        g.nodes[i].outputs[0] !in Targets(g.nodes, i) && g.nodes[i].inputs[1] !in Obsolete(g.nodes, i)
      ensures IsReplaced(g.nodes[i], Targets(g.nodes, |g.nodes|), Obsolete(g.nodes, |g.nodes|))
         <==> IsTarget(g.nodes, g.nodes[i])
    {
      EveryNodePlanned(g, i);
      if IsTarget(g.nodes, g.nodes[i]) {
        NewTarget(g, i);
      }
    }
  }

  lemma {:induction false} TargetSizes(nodes: seq<Node>, n: nat)
    requires TargetsDistinct(nodes) && n <= |nodes|
    ensures |Targets(nodes, n)| == |Obsolete(nodes, n)|
  {
    if n > 0 {
      TargetSizes(nodes, n - 1);
    }
  }

  /** Exactly the targets are replaced, and no two share a shape. */
  predicate ReplacesTargets(nodes: seq<Node>, targets: map<Name, Target>, obsolete: set<Name>) {
    forall i | 0 <= i < |nodes| ::
      && (IsReplaced(nodes[i], targets, obsolete) <==> IsTarget(nodes, nodes[i]))
      && (IsTarget(nodes, nodes[i]) ==> nodes[i].inputs[1] !in Obsolete(nodes, i))
  }

  lemma {:induction false} ReplacedSizes(nodes: seq<Node>, n: nat, targets: map<Name, Target>, obsolete: set<Name>)
    requires ReplacesTargets(nodes, targets, obsolete) && n <= |nodes|
    ensures |Obsolete(nodes, n)| == ReplacedCount(nodes[..n], targets, obsolete)
  {
    if n > 0 {
      ReplacedSizes(nodes, n - 1, targets, obsolete);
      RewriteStep(nodes, targets, obsolete, n - 1);
    }
  }

  lemma TargetCounts(nodes: seq<Node>, n: nat)
    requires TargetsDistinct(nodes) && n <= |nodes|
    ensures |Targets(nodes, n)| == |Obsolete(nodes, n)|
         == ReplacedCount(nodes[..n], Targets(nodes, |nodes|), Obsolete(nodes, |nodes|))
  {
    TargetSizes(nodes, n);
    ReplacedSizes(nodes, n, Targets(nodes, |nodes|), Obsolete(nodes, |nodes|));
  }

  lemma ReplacedAreTargets(g: Graph, n: nat)
    requires WellFormed(g) && Accepted(g.nodes) && n <= |g.nodes|
    ensures ReplacedCount(g.nodes[..n], Targets(g.nodes, |g.nodes|), Obsolete(g.nodes, |g.nodes|))
         == |Targets(g.nodes, n)| == |Obsolete(g.nodes, n)|
  {
    TargetsAreDistinct(g);
    TargetCounts(g.nodes, n);
  }

  lemma RewrittenAppend(g: Graph, n: nat)
    requires n < |g.nodes|
    ensures RewrittenNodes(g.nodes[..n + 1], Targets(g.nodes, |g.nodes|), Obsolete(g.nodes, |g.nodes|))
         == RewrittenNodes(g.nodes[..n], Targets(g.nodes, |g.nodes|), Obsolete(g.nodes, |g.nodes|)) + RewrittenAt(g, n)
  {
    RewriteStep(g.nodes, Targets(g.nodes, |g.nodes|), Obsolete(g.nodes, |g.nodes|), n);
  }

  lemma EvalUpTo(nodes: seq<Node>, n: nat, env: Env, meaning: Meaning)
    requires n < |nodes|
    ensures Eval(nodes, env, meaning) == Eval(nodes[n..], Eval(nodes[..n], env, meaning), meaning)
    ensures Eval(nodes[..n + 1], env, meaning) == Execute(Eval(nodes[..n], env, meaning), nodes[n], meaning)
  {
    assert nodes == nodes[..n] + nodes[n..];
    EvalAppend(nodes[..n], nodes[n..], env, meaning);
    assert nodes[..n + 1] == nodes[..n] + [nodes[n]];
    EvalAppend(nodes[..n], [nodes[n]], env, meaning);
    assert [nodes[n]][1..] == [];
  }

  function RewrittenUpTo(g: Graph, n: nat): seq<Node>
    requires n <= |g.nodes|
  {
    RewrittenNodes(g.nodes[..n], Targets(g.nodes, |g.nodes|), Obsolete(g.nodes, |g.nodes|))
  }

  lemma {:induction false} Simulation(g: Graph, n: nat, env: Env, env': Env, meaning: Meaning)
    requires WellFormed(g) && Accepted(g.nodes) && n <= |g.nodes|
    requires WarpBatches(g, Eval(g.nodes, env, meaning)) && Simulates(g, InitiallyKnown(g), env, env')
    ensures Simulates(g, KnownAt(g, n), Eval(g.nodes[..n], env, meaning), Eval(RewrittenUpTo(g, n), env', meaning))
  {
    if n == 0 {
      assert g.nodes[..0] == [];
    } else {
      Simulation(g, n - 1, env, env', meaning);
      SimulationStep(g, n - 1, env, env', meaning);
    }
  }

  lemma SimulationStep(g: Graph, n: nat, env: Env, env': Env, meaning: Meaning)
    requires WellFormed(g) && Accepted(g.nodes) && n < |g.nodes|
    requires WarpBatches(g, Eval(g.nodes, env, meaning))
    requires Simulates(g, KnownAt(g, n), Eval(g.nodes[..n], env, meaning), Eval(RewrittenUpTo(g, n), env', meaning))
    ensures Simulates(g, KnownAt(g, n + 1),
                      Eval(g.nodes[..n + 1], env, meaning), Eval(RewrittenUpTo(g, n + 1), env', meaning))
  {
    EvalUpTo(g.nodes, n, env, meaning);
    NodeStep(g, n, Eval(g.nodes[..n], env, meaning), Eval(RewrittenUpTo(g, n), env', meaning), meaning);
    RewrittenAppend(g, n);
    EvalAppend(RewrittenUpTo(g, n), RewrittenAt(g, n), env', meaning);
  }

  // ---------------------------------------------------------------- main results

  lemma {:induction false} InitializersAppend(env: Env, first: seq<Initializer>, second: seq<Initializer>)
    ensures WithInitializers(env, first + second) == WithInitializers(WithInitializers(env, first), second)
    decreases |first|
  {
    if first == [] {
      assert first + second == second;
    } else {
      assert (first + second)[1..] == first[1..] + second;
      InitializersAppend(env[first[0].name := first[0].tensor], first[1..], second);
    }
  }

  lemma {:induction false} SizesBound(env: Env, sizes: seq<Initializer>)
    requires forall i | 0 <= i < |sizes| :: sizes[i].tensor == ONES
    ensures forall n | n !in InitializerNames(sizes) :: Lookup(WithInitializers(env, sizes), n) == Lookup(env, n)
    ensures forall n | n in InitializerNames(sizes) && n != "" :: Lookup(WithInitializers(env, sizes), n) == Some(ONES)
    decreases |sizes|
  {
    if sizes != [] {
      SizesBound(env[sizes[0].name := sizes[0].tensor], sizes[1..]);
      assert sizes == [sizes[0]] + sizes[1..];
    }
  }

  lemma InitialSimulation(g: Graph, env: Env)
    requires WellFormed(g) && Accepted(g.nodes)
    ensures Simulates(g, InitiallyKnown(g), env, WithInitializers(env, SizesInitializers(WARP_RESHAPE_COUNT)))
  {
    SizesBound(env, SizesInitializers(WARP_RESHAPE_COUNT));
    SizesAreGenerated(g);
    ObsoleteIsNew(g);
  }

  lemma SizesAreGenerated(g: Graph)
    ensures InitializerNames(SizesInitializers(WARP_RESHAPE_COUNT)) <= GeneratedNames(g)
    ensures forall i | 1 <= i <= WARP_RESHAPE_COUNT ::
      SizesName(i) in InitializerNames(SizesInitializers(WARP_RESHAPE_COUNT)) && SizesName(i) != ""
  {
    var sizes := SizesInitializers(WARP_RESHAPE_COUNT);
    forall i | 1 <= i <= WARP_RESHAPE_COUNT
      ensures SizesName(i) in InitializerNames(sizes) && SizesName(i) != ""
    {
      assert sizes[i - 1].name == SizesName(i);
    }
    forall n | n in InitializerNames(sizes)
      ensures n in GeneratedNames(g)
    {
      var i :| 0 <= i < |sizes| && sizes[i].name == n;
      assert n == SizesName(i + 1);
    }
  }

  lemma ObsoleteIsNew(g: Graph)
    requires WellFormed(g)
    ensures Obsolete(g.nodes, |g.nodes|) !! InitiallyKnown(g)
  {
    forall n | n in Obsolete(g.nodes, |g.nodes|)
      ensures n !in InitiallyKnown(g)
    {
      ObsoleteOrigin(g.nodes, |g.nodes|, n);
      var k :| 0 <= k < |g.nodes| && IsTarget(g.nodes, g.nodes[k]) && g.nodes[k].inputs[1] == n;
      ShapeOfTarget(g, k);
      var c :| 0 <= c < |g.nodes| && g.nodes[c].op.Constant? && IsWarpShape(g.nodes[c].op.value)
        && g.nodes[c].outputs == [g.nodes[k].inputs[1]];
      OutputsAreNew(g.nodes, InitiallyKnown(g), c);
      assert n in Outputs(g.nodes[c].outputs);
    }
  }

  /** Main result: when every replaced source is a warp batch, all tensors but the
      removed shapes and the generated ones are computed unchanged, whatever the
      other operators mean. */
  lemma SplitsPreserveMeaning(g: Graph, feed: Env, meaning: Meaning)
    requires WellFormed(g) && Accepted(g.nodes) && WarpBatches(g, Run(g, feed, meaning))
    ensures forall n | n !in Obsolete(g.nodes, |g.nodes|) && n !in GeneratedNames(g) ::
      Lookup(Run(g, feed, meaning), n) == Lookup(Run(WithSplits(g), feed, meaning), n)
  {
    FinalSimulation(g, feed, meaning);
  }

  lemma FinalSimulation(g: Graph, feed: Env, meaning: Meaning)
    requires WellFormed(g) && Accepted(g.nodes) && WarpBatches(g, Run(g, feed, meaning))
    ensures Simulates(g, FinallyKnown(g.nodes, InitiallyKnown(g)),
                      Run(g, feed, meaning), Run(WithSplits(g), feed, meaning))
  {
    var env := WithInitializers(feed, g.initializers);
    var nodes := g.nodes;
    ReplacedAreTargets(g, |nodes|);
    assert nodes[..|nodes|] == nodes;
    InitializersAppend(feed, g.initializers, SizesInitializers(WARP_RESHAPE_COUNT));
    InitialSimulation(g, env);
    Simulation(g, |nodes|, env, WithInitializers(env, SizesInitializers(WARP_RESHAPE_COUNT)), meaning);
  }

  lemma {:induction false} NotDefined(nodes: seq<Node>, env: Env, meaning: Meaning, name: Name)
    requires forall i | 0 <= i < |nodes| :: name !in nodes[i].outputs
    ensures Lookup(Eval(nodes, env, meaning), name) == Lookup(env, name)
    decreases |nodes|
  {
    if nodes != [] {
      BindOther(env, nodes[0].outputs, Apply(nodes[0].op, Args(env, nodes[0].inputs), meaning), name);
      NotDefined(nodes[1..], Execute(env, nodes[0], meaning), meaning, name);
    }
  }

  lemma {:induction false} NotInitialized(env: Env, initializers: seq<Initializer>, name: Name)
    requires name !in InitializerNames(initializers)
    ensures Lookup(WithInitializers(env, initializers), name) == Lookup(env, name)
    decreases |initializers|
  {
    if initializers != [] {
      assert initializers[0] in initializers;
      assert InitializerNames(initializers[1..]) <= InitializerNames(initializers);
      NotInitialized(env[initializers[0].name := initializers[0].tensor], initializers[1..], name);
    }
  }

  /** A removed shape is not computed any more. */
  lemma RemovedShapeIsLost(g: Graph, feed: Env, meaning: Meaning, shape: Name)
    requires WellFormed(g) && Accepted(g.nodes) && feed.Keys <= InputNames(g)
    requires shape in Obsolete(g.nodes, |g.nodes|)
    ensures Lookup(Run(WithSplits(g), feed, meaning), shape) == None
  {
    var g' := WithSplits(g);
    NoDanglingShape(g);
    ObsoleteIsNew(g);
    ObsoleteNotGenerated(g);
    ReplacedAreTargets(g, |g.nodes|);
    assert g.nodes[..|g.nodes|] == g.nodes;
    forall i | i in g'.initializers
      ensures i.name != shape
    {
      if i in g.initializers {
        assert i.name in InitializerNames(g.initializers);
      } else {
        var k :| 0 <= k < WARP_RESHAPE_COUNT && i == SizesInitializers(WARP_RESHAPE_COUNT)[k];
        assert SizesName(k + 1) in GeneratedNames(g);
      }
    }
    NotInitialized(feed, g'.initializers, shape);
    NotDefined(g'.nodes, WithInitializers(feed, g'.initializers), meaning, shape);
  }

  lemma RemovedShapeWasComputed(g: Graph, feed: Env, meaning: Meaning, shape: Name)
    requires WellFormed(g) && Accepted(g.nodes) && WarpBatches(g, Run(g, feed, meaning))
    requires shape in Obsolete(g.nodes, |g.nodes|)
    ensures Lookup(Run(g, feed, meaning), shape).Some?
  {
    ObsoleteIsKnown(g, shape);
    FinalSimulation(g, feed, meaning);
  }

  lemma ObsoleteIsKnown(g: Graph, shape: Name)
    requires WellFormed(g) && shape in Obsolete(g.nodes, |g.nodes|)
    ensures shape in FinallyKnown(g.nodes, InitiallyKnown(g))
  {
    ObsoleteOrigin(g.nodes, |g.nodes|, shape);
    var k :| 0 <= k < |g.nodes| && IsTarget(g.nodes, g.nodes[k]) && g.nodes[k].inputs[1] == shape;
    ShapeOfTarget(g, k);
    var c :| 0 <= c < |g.nodes| && g.nodes[c].op.Constant? && IsWarpShape(g.nodes[c].op.value)
      && g.nodes[c].outputs == [shape];
    OutputsAreNew(g.nodes, InitiallyKnown(g), c);
    assert shape in Outputs(g.nodes[c].outputs);
  }

  /** Main result: a name of the original graph, such as a graph output, still has its
      tensor exactly if it is not one of the removed shapes. */
  lemma NameIsKeptIff(g: Graph, feed: Env, meaning: Meaning, name: Name)
    requires WellFormed(g) && Accepted(g.nodes) && WarpBatches(g, Run(g, feed, meaning))
    requires feed.Keys <= InputNames(g) && name !in GeneratedNames(g)
    ensures Lookup(Run(g, feed, meaning), name) == Lookup(Run(WithSplits(g), feed, meaning), name)
       <==> name !in Obsolete(g.nodes, |g.nodes|)
  {
    if name in Obsolete(g.nodes, |g.nodes|) {
      RemovedShapeIsLost(g, feed, meaning, name);
      RemovedShapeWasComputed(g, feed, meaning, name);
    } else {
      SplitsPreserveMeaning(g, feed, meaning);
    }
  }

  predicate NoneMention(nodes: seq<Node>, names: set<Name>) {
    forall i | 0 <= i < |nodes| :: MentionsNone(nodes[i], names)
  }

  /** No node that is left uses a shape constant that was removed. */
  lemma NoDanglingShape(g: Graph)
    requires WellFormed(g) && Accepted(g.nodes)
    ensures NoneMention(WithSplits(g).nodes, Obsolete(g.nodes, |g.nodes|))
  {
    NoDanglingUpTo(g, |g.nodes|);
    assert g.nodes[..|g.nodes|] == g.nodes;
  }

  lemma {:induction false} NoDanglingUpTo(g: Graph, n: nat)
    requires WellFormed(g) && Accepted(g.nodes) && n <= |g.nodes|
    ensures NoneMention(RewrittenNodes(g.nodes[..n], Targets(g.nodes, |g.nodes|), Obsolete(g.nodes, |g.nodes|)),
                        Obsolete(g.nodes, |g.nodes|))
  {
    if n > 0 {
      NoDanglingUpTo(g, n - 1);
      RewrittenAppend(g, n - 1);
      NoDanglingAt(g, n - 1);
      NoneMentionAppend(RewrittenNodes(g.nodes[..n - 1], Targets(g.nodes, |g.nodes|), Obsolete(g.nodes, |g.nodes|)),
                        RewrittenAt(g, n - 1), Obsolete(g.nodes, |g.nodes|));
    }
  }

  lemma NoneMentionAppend(first: seq<Node>, second: seq<Node>, names: set<Name>)
    requires NoneMention(first, names) && NoneMention(second, names)
    ensures NoneMention(first + second, names)
  {
  }

  lemma ObsoleteNotGenerated(g: Graph)
    requires WellFormed(g)
    ensures Obsolete(g.nodes, |g.nodes|) !! GeneratedNames(g)
  {
    forall c | c in Obsolete(g.nodes, |g.nodes|)
      ensures c !in GeneratedNames(g)
    {
      ObsoleteOrigin(g.nodes, |g.nodes|, c);
      var k :| 0 <= k < |g.nodes| && IsTarget(g.nodes, g.nodes[k]) && g.nodes[k].inputs[1] == c;
      assert MentionsNone(g.nodes[k], GeneratedNames(g));
    }
  }

  lemma NoDanglingAt(g: Graph, n: nat)
    requires WellFormed(g) && Accepted(g.nodes) && n < |g.nodes|
    ensures NoneMention(RewrittenAt(g, n), Obsolete(g.nodes, |g.nodes|))
  {
    EveryNodePlanned(g, n);
    ObsoleteNotGenerated(g);
    var node := g.nodes[n];
    if IsReplaced(node, Targets(g.nodes, |g.nodes|), Obsolete(g.nodes, |g.nodes|)) {
      ReplacedIndex(g, n);
      TargetsComplete(g.nodes, |g.nodes|, n);
      assert SizesName(IndexAt(g, n)) in GeneratedNames(g);
      assert Batch0(node.outputs[0]) in GeneratedNames(g) && Batch1(node.outputs[0]) in GeneratedNames(g);
    }
  }

  /** Every Constant and Reshape that goes is made up by a Split and a Concat. */
  lemma NodeCountIsKept(g: Graph)
    requires WellFormed(g) && Accepted(g.nodes)
    ensures |WithSplits(g).nodes| == |g.nodes|
  {
    var obsolete := Obsolete(g.nodes, |g.nodes|);
    assert g.nodes[..|g.nodes|] == g.nodes;
    CountUpTo(g, |g.nodes|);
    ReplacedAreTargets(g, |g.nodes|);

    forall c | c in obsolete
      ensures c in RemovedBy(g, |g.nodes|)
    {
      ObsoleteOrigin(g.nodes, |g.nodes|, c);
      var k :| 0 <= k < |g.nodes| && IsTarget(g.nodes, g.nodes[k]) && g.nodes[k].inputs[1] == c;
      ShapeOfTarget(g, k);
      var i :| 0 <= i < |g.nodes| && g.nodes[i].op.Constant? && IsWarpShape(g.nodes[i].op.value)
        && g.nodes[i].outputs == [c];
      assert IsRemoved(g.nodes[i], obsolete);
    }
    assert RemovedBy(g, |g.nodes|) == obsolete;
  }

  /** The shape constants removed by the first n nodes. */
  function RemovedBy(g: Graph, n: nat): set<Name>
    requires n <= |g.nodes|
  {
    set i | 0 <= i < n && IsRemoved(g.nodes[i], Obsolete(g.nodes, |g.nodes|)) :: g.nodes[i].outputs[0]
  }

  lemma RemovedIsNew(g: Graph, n: nat)
    requires WellFormed(g) && Accepted(g.nodes) && n < |g.nodes|
    requires IsRemoved(g.nodes[n], Obsolete(g.nodes, |g.nodes|))
    ensures g.nodes[n].outputs[0] !in RemovedBy(g, n)
  {
    var c := g.nodes[n].outputs[0];
    EveryNodePlanned(g, n);
    if c in RemovedBy(g, n) {
      var i :| 0 <= i < n && IsRemoved(g.nodes[i], Obsolete(g.nodes, |g.nodes|)) && g.nodes[i].outputs[0] == c;
      SameOutputSameNode(g.nodes, InitiallyKnown(g), i, n, c);
      assert false;
    }
  }

  lemma RemovedByOne(g: Graph, n: nat)
    requires WellFormed(g) && Accepted(g.nodes) && n < |g.nodes|
    ensures |RemovedBy(g, n + 1)| == |RemovedBy(g, n)| +
      if IsRemoved(g.nodes[n], Obsolete(g.nodes, |g.nodes|)) then 1 else 0
  {
    if IsRemoved(g.nodes[n], Obsolete(g.nodes, |g.nodes|)) {
      RemovedIsNew(g, n);
      assert RemovedBy(g, n + 1) == RemovedBy(g, n) + {g.nodes[n].outputs[0]};
    } else {
      assert RemovedBy(g, n + 1) == RemovedBy(g, n);
    }
  }

  lemma RewrittenLength(g: Graph, n: nat)
    requires n < |g.nodes|
    ensures |RewrittenAt(g, n)| + (if IsRemoved(g.nodes[n], Obsolete(g.nodes, |g.nodes|)) then 1 else 0)
         == 1 + if IsReplaced(g.nodes[n], Targets(g.nodes, |g.nodes|), Obsolete(g.nodes, |g.nodes|)) then 1 else 0
  {
  }

  lemma {:induction false} CountUpTo(g: Graph, n: nat)
    requires WellFormed(g) && Accepted(g.nodes) && n <= |g.nodes|
    ensures |RewrittenNodes(g.nodes[..n], Targets(g.nodes, |g.nodes|), Obsolete(g.nodes, |g.nodes|))|
            + |RemovedBy(g, n)|
         == n + ReplacedCount(g.nodes[..n], Targets(g.nodes, |g.nodes|), Obsolete(g.nodes, |g.nodes|))
  {
    if n > 0 {
      CountUpTo(g, n - 1);
      RewriteStep(g.nodes, Targets(g.nodes, |g.nodes|), Obsolete(g.nodes, |g.nodes|), n - 1);
      RemovedByOne(g, n - 1);
      RewrittenLength(g, n - 1);
    }
  }
}
