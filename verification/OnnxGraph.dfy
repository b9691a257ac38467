/** Single-assignment ONNX graphs and what they compute.

    A graph is a list of nodes read in order.  Its meaning is the environment
    of tensors reached after the last node.  The operators that the exporters
    rewrite (Cast, Constant, Reshape, Split and Concat) have the meaning the ONNX
    operator specification gives them wherever these modules compute it; everything
    else means whatever `meaning` says, so the theorems hold for all of them. */
module OnnxGraph {
  import opened Wrappers
  import opened Basics

  type Name = string

  // TensorProto element types.
  const FLOAT := 1
  const INT64 := 7

  // The elements are kept in row-major order; an element is its bit pattern.
  datatype Tensor = Tensor(elemType: int, shape: seq<nat>, data: seq<int>)

  datatype Op =
    | Cast(to: seq<int>)               // the values of all attributes named "to"
    | Constant(value: Option<Tensor>)  // None: not given by one "value" tensor
    | Reshape(allowZero: bool)
    | Split(axis: nat)
    | Concat(axis: nat)
    | Other(opType: string, attributes: string)

  datatype Node = Node(name: string, op: Op, inputs: seq<Name>, outputs: seq<Name>)

  datatype ValueInfo = ValueInfo(name: Name, elemType: int)

  datatype Initializer = Initializer(name: Name, tensor: Tensor)

  datatype Graph = Graph(
    inputs: seq<ValueInfo>,
    outputs: seq<ValueInfo>,
    valueInfo: seq<ValueInfo>,
    initializers: seq<Initializer>,
    nodes: seq<Node>)

  /** A model as the exporters see it: they overwrite its graph. */
  class ModelProto {
    var graph: Graph

    constructor (graph: Graph)
      ensures this.graph == graph
    {
      this.graph := graph;
    }
  }

  type Env = map<Name, Tensor>

  type Meaning = (Op, seq<Option<Tensor>>) -> seq<Tensor>

  // ---------------------------------------------------------------- operators

  function Product(dims: seq<nat>): nat {
    if dims == [] then 1 else dims[0] * Product(dims[1..])
  }

  predicate WellShaped(t: Tensor) {
    |t.data| == Product(t.shape)
  }

  /** One output dimension of Reshape: 0 copies the input dimension unless
      `allowZero`; a negative entry stands for an inferred dimension and is left to
      the parameter `meaning` of Apply. */
  function ReshapeDim(t: Tensor, entry: int, index: nat, allowZero: bool): Option<nat> {
    if entry < 0 then None
    else if entry == 0 && !allowZero then
      if index < |t.shape| then Some(t.shape[index]) else None
    else Some(entry)
  }

  function ReshapeDims(t: Tensor, entries: seq<int>, index: nat, allowZero: bool): Option<seq<nat>>
    requires index <= |entries|
    decreases |entries| - index
  {
    if index == |entries| then Some([])
    else
      match (ReshapeDim(t, entries[index], index, allowZero), ReshapeDims(t, entries, index + 1, allowZero))
      case (Some(d), Some(rest)) => Some([d] + rest)
      case _ => None
  }

  /** Reshape keeps the row-major data and replaces the shape. */
  function ReshapeTensor(t: Tensor, entries: seq<int>, allowZero: bool): Option<Tensor> {
    match ReshapeDims(t, entries, 0, allowZero)
    case None => None
    case Some(dims) =>
      if Product(dims) == |t.data| then Some(Tensor(t.elemType, dims, t.data)) else None
  }

  /** Where element p of a piece comes from: `block` elements of each row of `width`. */
  function PieceIndex(width: nat, block: nat, offset: nat, p: nat): nat
    requires block > 0
  {
    p / block * width + offset + p % block
  }

  /** The `block` elements at `offset` of each of the `outer` rows of `data`. */
  function Columns(data: seq<int>, outer: nat, width: nat, block: nat, offset: nat): (r: seq<int>)
    requires |data| == outer * width && offset + block <= width
    ensures |r| == outer * block
  {
    PieceIndexBounds(outer, width, block, offset);
    seq(outer * block, p requires 0 <= p < outer * block => data[PieceIndex(width, block, offset, p)])
  }

  /** The elements [start, start + size) of `t` along `axis`. */
  function Piece(t: Tensor, axis: nat, start: nat, size: nat): Tensor
    requires axis < |t.shape| && WellShaped(t)
    requires start + size <= t.shape[axis]
  {
    var outer, inner := Product(t.shape[..axis]), Product(t.shape[axis + 1..]);
    var width, block, offset := t.shape[axis] * inner, size * inner, start * inner;
    ProductSplit(t.shape, axis);
    ScaledSum(start, size, t.shape[axis], inner);
    Tensor(t.elemType, t.shape[axis := size], Columns(t.data, outer, width, block, offset))
  }

  function SplitPieces(t: Tensor, axis: nat, start: nat, sizes: seq<nat>): seq<Tensor>
    requires axis < |t.shape| && WellShaped(t)
    requires start + Sum(sizes) <= t.shape[axis]
    decreases |sizes|
  {
    if sizes == [] then []
    else [Piece(t, axis, start, sizes[0])] + SplitPieces(t, axis, start + sizes[0], sizes[1..])
  }

  function Sum(sizes: seq<nat>): nat {
    if sizes == [] then 0 else sizes[0] + Sum(sizes[1..])
  }

  /** Split is defined when the sizes add up to the split dimension. */
  function SplitTensor(t: Tensor, axis: nat, sizes: seq<int>): seq<Tensor> {
    if axis < |t.shape| && WellShaped(t) && (forall i | 0 <= i < |sizes| :: sizes[i] >= 0) then
      var naturals: seq<nat> := sizes;
      if Sum(naturals) == t.shape[axis] then SplitPieces(t, axis, 0, naturals) else []
    else []
  }

  predicate Joinable(a: Tensor, b: Tensor, axis: nat) {
    && axis < |a.shape| == |b.shape|
    && a.elemType == b.elemType
    && a.shape[..axis] == b.shape[..axis]
    && a.shape[axis + 1..] == b.shape[axis + 1..]
    && WellShaped(a) && WellShaped(b)
  }

  /** Where element p of a join comes from: of each row, first `blockA` elements
      of the first operand and then `blockB` elements of the second. */
  function JoinIndex(blockA: nat, blockB: nat, p: nat): (bool, nat)
    requires blockA + blockB > 0
  {
    var o, r := p / (blockA + blockB), p % (blockA + blockB);
    if r < blockA then (true, o * blockA + r) else (false, o * blockB + (r - blockA))
  }

  /** `outer` rows of `a` and `b` side by side. */
  function Beside(a: seq<int>, b: seq<int>, outer: nat, blockA: nat, blockB: nat): (r: seq<int>)
    requires |a| == outer * blockA && |b| == outer * blockB
    ensures |r| == outer * (blockA + blockB)
  {
    JoinIndexBounds(outer, blockA, blockB);
    seq(outer * (blockA + blockB), p requires 0 <= p < outer * (blockA + blockB) =>
      var from := JoinIndex(blockA, blockB, p);
      if from.0 then a[from.1] else b[from.1])
  }

  /** Two tensors one after the other along `axis`. */
  function Join(a: Tensor, b: Tensor, axis: nat): Tensor
    requires Joinable(a, b, axis)
  {
    var outer, inner := Product(a.shape[..axis]), Product(a.shape[axis + 1..]);
    ProductSplit(a.shape, axis);
    ProductSplit(b.shape, axis);
    Tensor(a.elemType, a.shape[axis := a.shape[axis] + b.shape[axis]],
           Beside(a.data, b.data, outer, a.shape[axis] * inner, b.shape[axis] * inner))
  }

  function ConcatTensors(ts: seq<Tensor>, axis: nat): Option<Tensor> {
    if ts == [] then None
    else if |ts| == 1 then Some(ts[0])
    else
      match ConcatTensors(ts[1..], axis)
      case Some(rest) => if Joinable(ts[0], rest, axis) then Some(Join(ts[0], rest, axis)) else None
      case None => None
  }

  predicate AllPresent(args: seq<Option<Tensor>>) {
    forall i | 0 <= i < |args| :: args[i].Some?
  }

  function Values(args: seq<Option<Tensor>>): seq<Tensor>
    requires AllPresent(args)
  {
    seq(|args|, i requires 0 <= i < |args| => args[i].value)
  }

  function OrElse(t: Option<Tensor>, otherwise: seq<Tensor>): seq<Tensor> {
    if t.Some? then [t.value] else otherwise
  }

  /** The results of one operator. What is not computed here, such as a Reshape with
      an inferred dimension, means what `meaning` says. */
  function Apply(op: Op, args: seq<Option<Tensor>>, meaning: Meaning): seq<Tensor> {
    match op
    case Cast(to) =>
      if |args| == 1 && args[0].None? then []
      else if |args| == 1 && to == [args[0].value.elemType] then [args[0].value]
      else meaning(op, args)
    case Constant(value) => if value.Some? then [value.value] else meaning(op, args)
    case Reshape(allowZero) =>
      if |args| == 2 && AllPresent(args) then
        OrElse(ReshapeTensor(args[0].value, args[1].value.data, allowZero), meaning(op, args))
      else meaning(op, args)
    case Split(axis) =>
      if |args| != 2 then meaning(op, args)
      else if AllPresent(args) && SplitTensor(args[0].value, axis, args[1].value.data) != [] then
        SplitTensor(args[0].value, axis, args[1].value.data)
      else meaning(op, args)
    case Concat(axis) =>
      if AllPresent(args) then OrElse(ConcatTensors(Values(args), axis), meaning(op, args)) else meaning(op, args)
    case Other(_, _) => meaning(op, args)
  }

  // ---------------------------------------------------------------- evaluation

  /** The empty name stands for an omitted optional input. */
  function Lookup(env: Env, name: Name): Option<Tensor> {
    if name != "" && name in env then Some(env[name]) else None
  }

  function Args(env: Env, inputs: seq<Name>): seq<Option<Tensor>> {
    seq(|inputs|, i requires 0 <= i < |inputs| => Lookup(env, inputs[i]))
  }

  function Bind(env: Env, outputs: seq<Name>, values: seq<Tensor>): Env
    decreases |outputs|
  {
    if outputs == [] || values == [] then env
    else Bind(if outputs[0] == "" then env else env[outputs[0] := values[0]], outputs[1..], values[1..])
  }

  function Execute(env: Env, node: Node, meaning: Meaning): Env {
    Bind(env, node.outputs, Apply(node.op, Args(env, node.inputs), meaning))
  }

  function Eval(nodes: seq<Node>, env: Env, meaning: Meaning): Env {
    if nodes == [] then env else Eval(nodes[1..], Execute(env, nodes[0], meaning), meaning)
  }

  function WithInitializers(env: Env, initializers: seq<Initializer>): Env
    decreases |initializers|
  {
    if initializers == [] then env
    else WithInitializers(env[initializers[0].name := initializers[0].tensor], initializers[1..])
  }

  /** Everything a graph computes from the tensors fed to its inputs. */
  function Run(graph: Graph, feed: Env, meaning: Meaning): Env {
    Eval(graph.nodes, WithInitializers(feed, graph.initializers), meaning)
  }

  // ---------------------------------------------------------------- well-formedness

  function InitializerNames(initializers: seq<Initializer>): set<Name> {
    set i | i in initializers :: i.name
  }

  /** Every input was computed before (or is omitted), and no output repeats a
      name that is already taken. */
  predicate Ordered(nodes: seq<Node>, known: set<Name>) {
    nodes == [] ||
    (&& (forall i | 0 <= i < |nodes[0].inputs| :: nodes[0].inputs[i] == "" || nodes[0].inputs[i] in known)
     && FreshOutputs(nodes[0].outputs, known)
     && Ordered(nodes[1..], known + Outputs(nodes[0].outputs)))
  }

  predicate FreshOutputs(outputs: seq<Name>, known: set<Name>) {
    && (forall i | 0 <= i < |outputs| :: outputs[i] !in known)
    && (forall i, j | 0 <= i < j < |outputs| :: outputs[i] == outputs[j] ==> outputs[i] == "")
  }

  function Outputs(outputs: seq<Name>): set<Name> {
    set o | o in outputs && o != ""
  }

  // ---------------------------------------------------------------- evaluation lemmas

  /** Binding outputs touches no other name, and binds the outputs alike over any
      two environments that agree on what is not bound. */
  lemma {:induction false} BindOther(env: Env, outputs: seq<Name>, values: seq<Tensor>, name: Name)
    requires name !in outputs || name == ""
    ensures Lookup(Bind(env, outputs, values), name) == Lookup(env, name)
    decreases |outputs|
  {
    if outputs == [] || values == [] {
    } else {
      BindOther(if outputs[0] == "" then env else env[outputs[0] := values[0]], outputs[1..], values[1..], name);
    }
  }

  lemma {:induction false} BindKeys(env: Env, outputs: seq<Name>, values: seq<Tensor>)
    ensures Bind(env, outputs, values).Keys <= env.Keys + Outputs(outputs)
    decreases |outputs|
  {
    if outputs == [] || values == [] {
    } else {
      var env' := if outputs[0] == "" then env else env[outputs[0] := values[0]];
      BindKeys(env', outputs[1..], values[1..]);
    }
  }

  lemma {:induction false} BindAgree(env: Env, env': Env, outputs: seq<Name>, values: seq<Tensor>, name: Name)
    requires Lookup(env, name) == Lookup(env', name)
    ensures Lookup(Bind(env, outputs, values), name) == Lookup(Bind(env', outputs, values), name)
    decreases |outputs|
  {
    if outputs == [] || values == [] {
    } else {
      var next := if outputs[0] == "" then env else env[outputs[0] := values[0]];
      var next' := if outputs[0] == "" then env' else env'[outputs[0] := values[0]];
      BindAgree(next, next', outputs[1..], values[1..], name);
    }
  }

  /** A name bound before an ordered list of nodes keeps its tensor to the end. */
  lemma {:induction false} KnownIsKept(nodes: seq<Node>, known: set<Name>, env: Env, meaning: Meaning, name: Name)
    requires Ordered(nodes, known) && name in known
    ensures Lookup(Eval(nodes, env, meaning), name) == Lookup(env, name)
  {
    if nodes != [] {
      var values := Apply(nodes[0].op, Args(env, nodes[0].inputs), meaning);
      BindOther(env, nodes[0].outputs, values, name);
      KnownIsKept(nodes[1..], known + Outputs(nodes[0].outputs), Execute(env, nodes[0], meaning), meaning, name);
    }
  }

  lemma {:induction false} EvalAppend(first: seq<Node>, second: seq<Node>, env: Env, meaning: Meaning)
    ensures Eval(first + second, env, meaning) == Eval(second, Eval(first, env, meaning), meaning)
    decreases |first|
  {
    if first == [] {
      assert first + second == second;
    } else {
      assert (first + second)[1..] == first[1..] + second;
      EvalAppend(first[1..], second, Execute(env, first[0], meaning), meaning);
    }
  }

  // ---------------------------------------------------------------- names of ordered graphs

  /** All names defined once the nodes have been read. */
  function FinallyKnown(nodes: seq<Node>, known: set<Name>): set<Name>
    decreases |nodes|
  {
    if nodes == [] then known else FinallyKnown(nodes[1..], known + Outputs(nodes[0].outputs))
  }

  /** Nodes of an ordered list define different names, none of them known before. */
  lemma {:induction false} OutputsAreNew(nodes: seq<Node>, known: set<Name>, i: nat)
    requires Ordered(nodes, known) && i < |nodes|
    ensures Outputs(nodes[i].outputs) !! known
    ensures forall j | i < j < |nodes| :: Outputs(nodes[i].outputs) !! Outputs(nodes[j].outputs)
    ensures known <= FinallyKnown(nodes, known) && Outputs(nodes[i].outputs) <= FinallyKnown(nodes, known)
  {
    var next := known + Outputs(nodes[0].outputs);
    KnownGrows(nodes[1..], next);
    if i > 0 {
      OutputsAreNew(nodes[1..], next, i - 1);
      assert nodes[1..][i - 1] == nodes[i];
      forall j | i < j < |nodes|
        ensures Outputs(nodes[i].outputs) !! Outputs(nodes[j].outputs)
      {
        assert nodes[1..][j - 1] == nodes[j];
      }
    } else {
      forall j | 0 < j < |nodes|
        ensures Outputs(nodes[0].outputs) !! Outputs(nodes[j].outputs)
      {
        OutputsAreNew(nodes[1..], next, j - 1);
        assert nodes[1..][j - 1] == nodes[j];
      }
    }
  }

  /** The order seen from the middle: what is known before node n, and that the
      rest is in order from there. */
  lemma {:induction false} OrderedAt(nodes: seq<Node>, known: set<Name>, n: nat)
    requires Ordered(nodes, known) && n <= |nodes|
    ensures Ordered(nodes[n..], FinallyKnown(nodes[..n], known))
    ensures n < |nodes| ==>
      FinallyKnown(nodes[..n + 1], known) == FinallyKnown(nodes[..n], known) + Outputs(nodes[n].outputs)
    decreases n
  {
    if n == 0 {
      assert nodes[0..] == nodes && nodes[..0] == [];
      if nodes != [] {
        assert nodes[..1][1..] == [];
      }
    } else {
      OrderedAt(nodes[1..], known + Outputs(nodes[0].outputs), n - 1);
      assert nodes[1..][n - 1..] == nodes[n..];
      assert nodes[..n][1..] == nodes[1..][..n - 1];
      if n < |nodes| {
        assert nodes[..n + 1][1..] == nodes[1..][..n];
      }
    }
  }

  lemma {:induction false} KnownGrows(nodes: seq<Node>, known: set<Name>)
    ensures known <= FinallyKnown(nodes, known)
    decreases |nodes|
  {
    if nodes != [] {
      KnownGrows(nodes[1..], known + Outputs(nodes[0].outputs));
    }
  }

  function InputNames(g: Graph): set<Name> {
    set i | i in g.inputs :: i.name
  }

  function InitiallyKnown(g: Graph): set<Name> {
    InputNames(g) + InitializerNames(g.initializers)
  }

  lemma SameOutputSameNode(nodes: seq<Node>, known: set<Name>, i: nat, k: nat, name: Name)
    requires Ordered(nodes, known) && i < |nodes| && k < |nodes|
    requires name != "" && name in nodes[i].outputs && name in nodes[k].outputs
    ensures i == k
  {
    OutputsAreNew(nodes, known, i);
    OutputsAreNew(nodes, known, k);
    assert name in Outputs(nodes[i].outputs) && name in Outputs(nodes[k].outputs);
  }

  // ---------------------------------------------------------------- row-major bounds

  lemma {:induction false} ProductSplit(dims: seq<nat>, axis: nat)
    requires axis < |dims|
    ensures Product(dims) == Product(dims[..axis]) * (dims[axis] * Product(dims[axis + 1..]))
  {
    if axis == 0 {
      assert dims[..0] == [];
    } else {
      ProductSplit(dims[1..], axis - 1);
      assert dims[1..][..axis - 1] == dims[1..axis];
      assert dims[..axis][0] == dims[0] && dims[..axis][1..] == dims[1..axis];
      assert dims[1..][axis..] == dims[axis + 1..];
      MulAssociates(dims[0], Product(dims[1..axis]), dims[axis] * Product(dims[axis + 1..]));
    }
  }

  lemma MulAssociates(a: int, b: int, c: int)
    ensures a * (b * c) == (a * b) * c
  {
  }

  lemma ScaledSum(a: nat, b: nat, c: nat, scale: nat)
    requires a + b <= c
    ensures a * scale + b * scale <= c * scale
    ensures a * scale >= 0 && b * scale >= 0 && c * scale >= 0
  {
    MulMonotone(a + b, c, scale);
  }

  /** Position (o, r) of an outer * block grid lies inside it. */
  lemma GridBound(outer: nat, block: nat, o: nat, r: nat)
    requires o < outer && r < block
    ensures o * block + r < outer * block
  {
    MulMonotone(o + 1, outer, block);
  }

  lemma GridDivMod(outer: nat, block: nat, p: nat)
    requires p < outer * block
    ensures block > 0 && p / block < outer && p % block < block
  {
    if p / block >= outer {
      MulMonotone(outer, p / block, block);
      assert false;
    }
  }

  lemma PieceIndexBounds(outer: nat, width: nat, block: nat, offset: nat)
    requires offset + block <= width
    ensures forall p | 0 <= p < outer * block :: block > 0 && PieceIndex(width, block, offset, p) < outer * width
  {
    forall p | 0 <= p < outer * block
      ensures block > 0 && PieceIndex(width, block, offset, p) < outer * width
    {
      GridDivMod(outer, block, p);
      GridBound(outer, width, p / block, offset + p % block);
    }
  }

  lemma JoinIndexBound(outer: nat, blockA: nat, blockB: nat, p: nat)
    requires p < outer * (blockA + blockB)
    ensures blockA + blockB > 0
    ensures var from := JoinIndex(blockA, blockB, p);
      from.1 < if from.0 then outer * blockA else outer * blockB
  {
    var block := blockA + blockB;
    GridDivMod(outer, block, p);
    var o, r := p / block, p % block;
    if r < blockA {
      GridBound(outer, blockA, o, r);
    } else {
      GridBound(outer, blockB, o, r - blockA);
    }
  }

  lemma JoinIndexBounds(outer: nat, blockA: nat, blockB: nat)
    ensures forall p | 0 <= p < outer * (blockA + blockB) ::
      && blockA + blockB > 0
      && JoinIndex(blockA, blockB, p).1 < if JoinIndex(blockA, blockB, p).0 then outer * blockA else outer * blockB
  {
    forall p | 0 <= p < outer * (blockA + blockB)
      ensures blockA + blockB > 0
      ensures JoinIndex(blockA, blockB, p).1 < if JoinIndex(blockA, blockB, p).0 then outer * blockA else outer * blockB
    {
      JoinIndexBound(outer, blockA, blockB, p);
    }
  }
}
