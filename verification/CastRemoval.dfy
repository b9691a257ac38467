/** The exporter's removal of FP32-to-FP32 Cast nodes
    (dev/windows/rife_v426_scale05_export.py), and the proof that the rewritten
    graph computes the same tensors. */
module CastRemoval {
  import opened Wrappers
  import opened Basics
  import opened OnnxGraph

  type Replacements = map<Name, Name>

  datatype ExportError =
    | NonRedundantCast(node: Name)
    | CastCycle
    | CheckerRejected

  // ---------------------------------------------------------------- the specification

  function ValueTypesOf(values: seq<ValueInfo>): map<Name, int> {
    if values == [] then map[]
    else ValueTypesOf(values[..|values| - 1])[values[|values| - 1].name := values[|values| - 1].elemType]
  }

  function InitializerTypes(initializers: seq<Initializer>): map<Name, int> {
    if initializers == [] then map[]
    else
      var last := initializers[|initializers| - 1];
      InitializerTypes(initializers[..|initializers| - 1])[last.name := last.tensor.elemType]
  }

  /** The element types known after shape inference; initializers win. */
  function ValueTypes(g: Graph): map<Name, int> {
    ValueTypesOf(g.inputs + g.outputs + g.valueInfo) + InitializerTypes(g.initializers)
  }

  function OutputNames(g: Graph): set<Name> {
    set o | o in g.outputs :: o.name
  }

  predicate IsFloat(types: map<Name, int>, name: Name) {
    name in types && types[name] == FLOAT
  }

  predicate RedundantCast(g: Graph, node: Node) {
    && node.op.Cast?
    && |node.inputs| == 1 && |node.outputs| == 1
    && node.op.to == [FLOAT]
    && IsFloat(ValueTypes(g), node.inputs[0])
    && IsFloat(ValueTypes(g), node.outputs[0])
    && node.outputs[0] !in OutputNames(g)
  }

  /** Every Cast among the first `count` nodes may be removed. */
  predicate AllCastsRedundant(g: Graph, count: nat)
    requires count <= |g.nodes|
  {
    forall i | 0 <= i < count && g.nodes[i].op.Cast? :: RedundantCast(g, g.nodes[i])
  }

  function CastReplacements(nodes: seq<Node>): Replacements {
    if nodes == [] then map[]
    else
      var last := nodes[|nodes| - 1];
      var before := CastReplacements(nodes[..|nodes| - 1]);
      if last.op.Cast? && |last.inputs| == 1 && |last.outputs| == 1
      then before[last.outputs[0] := last.inputs[0]] else before
  }

  function KeptNodes(nodes: seq<Node>): seq<Node> {
    if nodes == [] then []
    else if nodes[0].op.Cast? then KeptNodes(nodes[1..])
    else [nodes[0]] + KeptNodes(nodes[1..])
  }

  /** `steps` replacements of a name, stopping early where none applies. */
  function Follow(replacements: Replacements, name: Name, steps: nat): Name
    decreases steps
  {
    if steps == 0 || name !in replacements then name
    else Follow(replacements, replacements[name], steps - 1)
  }

  /** What a name stands for once every replacement is applied. */
  function Resolved(replacements: Replacements, name: Name): Name {
    Follow(replacements, name, |replacements|)
  }

  predicate Resolves(replacements: Replacements, name: Name) {
    Resolved(replacements, name) !in replacements
  }

  predicate AllInputsResolve(replacements: Replacements, nodes: seq<Node>) {
    forall i, j | 0 <= i < |nodes| && 0 <= j < |nodes[i].inputs| :: Resolves(replacements, nodes[i].inputs[j])
  }

  function ResolvedNames(replacements: Replacements, names: seq<Name>): seq<Name> {
    seq(|names|, i requires 0 <= i < |names| => Resolved(replacements, names[i]))
  }

  function ResolvedNode(replacements: Replacements, node: Node): Node {
    node.(inputs := ResolvedNames(replacements, node.inputs))
  }

  function ResolvedNodes(replacements: Replacements, nodes: seq<Node>): seq<Node> {
    seq(|nodes|, i requires 0 <= i < |nodes| => ResolvedNode(replacements, nodes[i]))
  }

  function KeptInfo(replacements: Replacements, values: seq<ValueInfo>): seq<ValueInfo> {
    if values == [] then []
    else
      var before := KeptInfo(replacements, values[..|values| - 1]);
      var last := values[|values| - 1];
      if last.name !in replacements then before + [last] else before
  }

  /** The graph without its Casts. */
  function WithoutCasts(g: Graph): Graph {
    var replacements := CastReplacements(g.nodes);
    g.(nodes := ResolvedNodes(replacements, KeptNodes(g.nodes)),
       valueInfo := KeptInfo(replacements, g.valueInfo))
  }

  // ---------------------------------------------------------------- the algorithm

  /** Follows the replacements of one name, with the set of names already seen.
      It always terminates, and reports a cycle exactly when no number of
      replacements ever leaves the map. */
  method Resolve(replacements: Replacements, start: Name) returns (r: Result<Name, ExportError>)
    ensures r.Success? <==> Resolves(replacements, start)
    ensures r.Success? ==> r.value == Resolved(replacements, start)
    ensures r.Failure? <==> forall steps: nat :: Follow(replacements, start, steps) in replacements
    ensures r.Failure? ==> r.error == CastCycle
  {
    var name := start;
    var visited: set<Name> := {};
    while name in replacements
      invariant visited <= replacements.Keys
      invariant name == Follow(replacements, start, |visited|)
      invariant visited == set i: nat | i < |visited| :: Follow(replacements, start, i)
      invariant forall i: nat | i < |visited| :: Follow(replacements, start, i) in replacements
      decreases replacements.Keys - visited
    {
      if name in visited {
        var i: nat :| i < |visited| && Follow(replacements, start, i) == name;
        CycleNeverLeaves(replacements, start, i, |visited|);
        return Failure(CastCycle);
      }
      FollowOneMore(replacements, start, |visited|);
      ghost var before := visited;
      assert forall i: nat | i < |before| :: Follow(replacements, start, i) in before;
      visited := visited + {name};
      name := replacements[name];
    }
    SubsetSize(visited, replacements.Keys);
    FollowStays(replacements, start, |visited|, |replacements|);
    return Success(name);
  }

  /** One pass over the nodes: the replacements of the redundant Casts and the
      other nodes in order, or the first Cast that is not redundant. */
  method CollectCasts(g: Graph) returns (r: Result<(Replacements, seq<Node>), ExportError>)
    ensures r.Success? <==> AllCastsRedundant(g, |g.nodes|)
    ensures r.Success? ==> r.value == (CastReplacements(g.nodes), KeptNodes(g.nodes))
    ensures r.Failure? ==>
      (exists i :: 0 <= i < |g.nodes| && g.nodes[i].op.Cast? && !RedundantCast(g, g.nodes[i])
                   && AllCastsRedundant(g, i) && r.error == NonRedundantCast(g.nodes[i].name))
  {
    var replacements: Replacements := map[];
    var kept: seq<Node> := [];
    for i := 0 to |g.nodes|
      invariant AllCastsRedundant(g, i)
      invariant replacements == CastReplacements(g.nodes[..i])
      invariant kept == KeptNodes(g.nodes[..i])
    {
      var node := g.nodes[i];
      PrefixStep(g.nodes, i);
      if !node.op.Cast? {
        kept := kept + [node];
      } else if RedundantCast(g, node) {
        replacements := replacements[node.outputs[0] := node.inputs[0]];
      } else {
        assert !RedundantCast(g, g.nodes[i]);
        return Failure(NonRedundantCast(node.name));
      }
    }
    assert g.nodes[..|g.nodes|] == g.nodes;
    return Success((replacements, kept));
  }

  lemma PrefixStep(nodes: seq<Node>, i: nat)
    requires i < |nodes|
    ensures KeptNodes(nodes[..i + 1]) == KeptNodes(nodes[..i]) + if nodes[i].op.Cast? then [] else [nodes[i]]
    ensures CastReplacements(nodes[..i + 1])
         == if IsCast(nodes[i]) then CastReplacements(nodes[..i])[nodes[i].outputs[0] := nodes[i].inputs[0]]
            else CastReplacements(nodes[..i])
  {
    assert nodes[..i + 1] == nodes[..i] + [nodes[i]];
    assert nodes[..i + 1][..i] == nodes[..i];
    KeptNodesAppend(nodes[..i], nodes[i]);
  }

  /** Overwrites every input of every kept node by what it resolves to. */
  method ResolveInputs(replacements: Replacements, kept: seq<Node>) returns (r: Result<seq<Node>, ExportError>)
    ensures r.Success? <==> AllInputsResolve(replacements, kept)
    ensures r.Success? ==> r.value == ResolvedNodes(replacements, kept)
    ensures r.Failure? ==> r.error == CastCycle
  {
    var nodes := kept;
    for k := 0 to |kept|
      invariant |nodes| == |kept|
      invariant forall i, j | 0 <= i < k && 0 <= j < |kept[i].inputs| :: Resolves(replacements, kept[i].inputs[j])
      invariant forall i | 0 <= i < k :: nodes[i] == ResolvedNode(replacements, kept[i])
      invariant forall i | k <= i < |kept| :: nodes[i] == kept[i]
    {
      var inputs := nodes[k].inputs;
      for index := 0 to |inputs|
        invariant |inputs| == |kept[k].inputs|
        invariant forall j | 0 <= j < index :: Resolves(replacements, kept[k].inputs[j])
        invariant forall j | 0 <= j < index :: inputs[j] == Resolved(replacements, kept[k].inputs[j])
        invariant forall j | index <= j < |inputs| :: inputs[j] == kept[k].inputs[j]
      {
        var resolved := Resolve(replacements, inputs[index]);
        if resolved.Failure? {
          assert !Resolves(replacements, kept[k].inputs[index]);
          return Failure(resolved.error);
        }
        inputs := inputs[index := resolved.value];
      }
      assert inputs == ResolvedNames(replacements, kept[k].inputs);
      nodes := nodes[k := nodes[k].(inputs := inputs)];
    }
    assert nodes == ResolvedNodes(replacements, kept);
    return Success(nodes);
  }

  /** `inferred` is the copy returned by shape inference and `checkerAccepts` the
      verdict of the ONNX checker on the rewritten copy.  The model is only
      replaced on success. */
  method RemoveRedundantFp32Casts(model: ModelProto, inferred: Graph, checkerAccepts: bool)
    returns (r: Result<nat, ExportError>)
    modifies model
    ensures r.Failure? ==> model.graph == old(model.graph)
    ensures r.Success? ==> r.value == |CastReplacements(inferred.nodes)|
    ensures r.Success? ==> model.graph == if r.value == 0 then inferred else WithoutCasts(inferred)
    ensures r.Failure? && r.error.NonRedundantCast? <==> !AllCastsRedundant(inferred, |inferred.nodes|)
    ensures r.Failure? && r.error.CastCycle? <==>
      && AllCastsRedundant(inferred, |inferred.nodes|)
      && CastReplacements(inferred.nodes) != map[]
      && !AllInputsResolve(CastReplacements(inferred.nodes), KeptNodes(inferred.nodes))
    ensures r.Failure? && r.error.CheckerRejected? <==>
      && AllCastsRedundant(inferred, |inferred.nodes|)
      && CastReplacements(inferred.nodes) != map[]
      && AllInputsResolve(CastReplacements(inferred.nodes), KeptNodes(inferred.nodes))
      && !checkerAccepts
  {
    var collected := CollectCasts(inferred);
    if collected.Failure? {
      return Failure(collected.error);
    }
    assert AllCastsRedundant(inferred, |inferred.nodes|);
    var (replacements, kept) := collected.value;
    if |replacements| == 0 {
      assert replacements == map[];
      model.graph := inferred;
      return Success(0);
    }
    var resolved := ResolveInputs(replacements, kept);
    if resolved.Failure? {
      return Failure(resolved.error);
    }
    var keptInfo: seq<ValueInfo> := [];
    for i := 0 to |inferred.valueInfo|
      invariant keptInfo == KeptInfo(replacements, inferred.valueInfo[..i])
    {
      assert inferred.valueInfo[..i + 1][..i] == inferred.valueInfo[..i];
      if inferred.valueInfo[i].name !in replacements {
        keptInfo := keptInfo + [inferred.valueInfo[i]];
      }
    }
    assert inferred.valueInfo[..|inferred.valueInfo|] == inferred.valueInfo;
    if !checkerAccepts {
      return Failure(CheckerRejected);
    }
    model.graph := inferred.(nodes := resolved.value, valueInfo := keptInfo);
    return Success(|replacements|);
  }

  predicate Declares(values: seq<ValueInfo>, name: Name, elemType: int) {
    ValueInfo(name, elemType) in values
  }

  lemma {:induction false} ValueTypesOfAre(values: seq<ValueInfo>)
    ensures forall v | v in values :: v.name in ValueTypesOf(values)
    ensures forall n | n in ValueTypesOf(values) :: Declares(values, n, ValueTypesOf(values)[n])
  {
    if values != [] {
      var last := |values| - 1;
      ValueTypesOfAre(values[..last]);
      assert values == values[..last] + [values[last]];
      assert values[last] == ValueInfo(values[last].name, values[last].elemType);
    }
  }

  lemma {:induction false} InitializerTypesAre(initializers: seq<Initializer>)
    ensures InitializerTypes(initializers).Keys == InitializerNames(initializers)
    ensures forall n | n in InitializerTypes(initializers) ::
      exists i :: i in initializers && i.name == n && i.tensor.elemType == InitializerTypes(initializers)[n]
  {
    if initializers != [] {
      var last := |initializers| - 1;
      InitializerTypesAre(initializers[..last]);
      assert initializers == initializers[..last] + [initializers[last]];
    }
  }

  /** Exactly the names that are described or initialized have a known type, one with which
      they are; an initializer decides. */
  lemma ValueTypesAreDeclared(g: Graph, name: Name)
    ensures var described := g.inputs + g.outputs + g.valueInfo;
      && (name in ValueTypes(g) <==>
            (exists v :: v in described && v.name == name) || name in InitializerNames(g.initializers))
      && (name in InitializerNames(g.initializers) ==>
            exists i :: i in g.initializers && i.name == name && i.tensor.elemType == ValueTypes(g)[name])
      && (name in ValueTypes(g) && name !in InitializerNames(g.initializers) ==>
            Declares(described, name, ValueTypes(g)[name]))
  {
    ValueTypesOfAre(g.inputs + g.outputs + g.valueInfo);
    InitializerTypesAre(g.initializers);
  }

  /** The descriptions of values that are left are those of names that are not replaced. */
  lemma {:induction false} KeptInfoIs(replacements: Replacements, values: seq<ValueInfo>)
    ensures forall v :: v in KeptInfo(replacements, values) <==> v in values && v.name !in replacements
  {
    if values != [] {
      KeptInfoIs(replacements, values[..|values| - 1]);
      assert values == values[..|values| - 1] + [values[|values| - 1]];
    }
  }

  // ---------------------------------------------------------------- following replacements

  lemma {:induction false} FollowOneMore(m: Replacements, name: Name, steps: nat)
    requires Follow(m, name, steps) in m
    ensures Follow(m, name, steps + 1) == m[Follow(m, name, steps)]
    decreases steps
  {
    if steps > 0 && name in m {
      FollowOneMore(m, m[name], steps - 1);
    }
  }

  lemma {:induction false} FollowStays(m: Replacements, name: Name, steps: nat, more: nat)
    requires steps <= more && Follow(m, name, steps) !in m
    ensures Follow(m, name, more) == Follow(m, name, steps)
    decreases steps
  {
    if name in m {
      FollowStays(m, m[name], steps - 1, more - 1);
    }
  }

  /** When a chain of replacements meets itself it goes round for ever. */
  lemma CycleNeverLeaves(m: Replacements, start: Name, i: nat, k: nat)
    requires i < k && Follow(m, start, i) == Follow(m, start, k)
    requires forall j: nat | j < k :: Follow(m, start, j) in m
    ensures forall steps: nat :: Follow(m, start, steps) in m
    ensures !Resolves(m, start)
  {
    forall steps: nat
      ensures Follow(m, start, steps) in m
    {
      CycleStep(m, start, i, k, steps);
    }
  }

  lemma {:induction false} CycleStep(m: Replacements, start: Name, i: nat, k: nat, steps: nat)
    requires i < k && Follow(m, start, i) == Follow(m, start, k)
    requires forall j: nat | j < k :: Follow(m, start, j) in m
    ensures Follow(m, start, steps) in m
    ensures steps >= k ==> Follow(m, start, steps) == Follow(m, start, steps - (k - i))
  {
    if steps > k {
      CycleStep(m, start, i, k, steps - 1);
      CycleStep(m, start, i, k, steps - 1 - (k - i));
      FollowOneMore(m, start, steps - 1);
      FollowOneMore(m, start, steps - 1 - (k - i));
      CycleStep(m, start, i, k, steps - (k - i));
    }
  }

  lemma {:induction false} KeptNodesAppend(nodes: seq<Node>, node: Node)
    ensures KeptNodes(nodes + [node]) == KeptNodes(nodes) + if node.op.Cast? then [] else [node]
  {
    if nodes != [] {
      assert (nodes + [node])[1..] == nodes[1..] + [node];
      KeptNodesAppend(nodes[1..], node);
    }
  }

  // ---------------------------------------------------------------- what the removal keeps

  /** Single-assignment and topologically ordered, with no type recorded for the
      name of an omitted input. */
  predicate WellFormed(g: Graph) {
    Ordered(g.nodes, InitiallyKnown(g)) && "" !in ValueTypes(g)
  }

  /** The inferred element types are right about every tensor of an evaluation. */
  predicate TypesHold(types: map<Name, int>, env: Env) {
    forall n | n in types && Lookup(env, n).Some? :: Lookup(env, n).value.elemType == types[n]
  }

  /** What the nodes of a suffix have to do with the replacements of the whole graph. */
  predicate Consistent(m: Replacements, nodes: seq<Node>) {
    && "" !in m
    && (forall i | 0 <= i < |nodes| && nodes[i].op.Cast? ::
          && |nodes[i].inputs| == 1 && |nodes[i].outputs| == 1
          && nodes[i].outputs[0] in m && m[nodes[i].outputs[0]] == nodes[i].inputs[0] != "")
    && (forall i, j | 0 <= i < |nodes| && !nodes[i].op.Cast? && 0 <= j < |nodes[i].outputs| ::
          nodes[i].outputs[j] !in m)
  }

  predicate IsCast(node: Node) {
    node.op.Cast? && |node.inputs| == 1 && |node.outputs| == 1
  }

  /** A replacement comes from a Cast, and the last Cast of a name decides. */
  lemma {:induction false} ReplacementOrigin(nodes: seq<Node>, name: Name)
    ensures name in CastReplacements(nodes) <==>
              exists i :: 0 <= i < |nodes| && IsCast(nodes[i]) && nodes[i].outputs[0] == name
    ensures name in CastReplacements(nodes) ==>
      (exists i :: 0 <= i < |nodes| && IsCast(nodes[i]) && nodes[i].outputs[0] == name
                   && CastReplacements(nodes)[name] == nodes[i].inputs[0])
  {
    if nodes != [] {
      var n := |nodes| - 1;
      ReplacementOrigin(nodes[..n], name);
      assert forall i | 0 <= i < n :: nodes[..n][i] == nodes[i];
      if IsCast(nodes[n]) && nodes[n].outputs[0] == name {
      } else if name in CastReplacements(nodes[..n]) {
        var i :| 0 <= i < n && IsCast(nodes[..n][i]) && nodes[..n][i].outputs[0] == name
          && CastReplacements(nodes[..n])[name] == nodes[..n][i].inputs[0];
        assert nodes[i].outputs[0] == name;
      }
    }
  }

  lemma GraphIsConsistent(g: Graph)
    requires WellFormed(g) && AllCastsRedundant(g, |g.nodes|)
    ensures Consistent(CastReplacements(g.nodes), g.nodes)
  {
    var m := CastReplacements(g.nodes);
    ReplacementOrigin(g.nodes, "");
    forall i | 0 <= i < |g.nodes| && g.nodes[i].op.Cast?
      ensures g.nodes[i].outputs[0] in m && m[g.nodes[i].outputs[0]] == g.nodes[i].inputs[0] != ""
    {
      ReplacementOrigin(g.nodes, g.nodes[i].outputs[0]);
      var k :| 0 <= k < |g.nodes| && IsCast(g.nodes[k]) && g.nodes[k].outputs[0] == g.nodes[i].outputs[0]
        && m[g.nodes[i].outputs[0]] == g.nodes[k].inputs[0];
      SameOutputSameNode(g.nodes, InitiallyKnown(g), i, k, g.nodes[i].outputs[0]);
    }
    forall i, j | 0 <= i < |g.nodes| && !g.nodes[i].op.Cast? && 0 <= j < |g.nodes[i].outputs|
      ensures g.nodes[i].outputs[j] !in m
    {
      var name := g.nodes[i].outputs[j];
      ReplacementOrigin(g.nodes, name);
      if name in m {
        var k :| 0 <= k < |g.nodes| && IsCast(g.nodes[k]) && g.nodes[k].outputs[0] == name;
        SameOutputSameNode(g.nodes, InitiallyKnown(g), i, k, name);
        assert false;
      }
    }
  }

  /** Every name that is known resolves, and to a name that is known and kept. */
  predicate KnownResolve(m: Replacements, known: set<Name>) {
    forall n | n in known :: Resolves(m, n) && Resolved(m, n) in known
  }

  /** The Casts passed so far define `passed`: that many replacements are enough
      for every name that is known. */
  predicate KnownEnd(m: Replacements, known: set<Name>, passed: set<Name>) {
    && passed <= known && passed <= m.Keys
    && forall n | n in known :: Follow(m, n, |passed|) !in m && Follow(m, n, |passed|) in known
  }

  function PassedBy(node: Node): set<Name> {
    if node.op.Cast? then Outputs(node.outputs) else {}
  }

  lemma EndAfterCast(m: Replacements, known: set<Name>, passed: set<Name>, input: Name, output: Name)
    requires KnownEnd(m, known, passed) && input in known && output !in known
    requires output in m && m[output] == input
    ensures KnownEnd(m, known + {output}, passed + {output})
  {
    var more := passed + {output};
    assert |more| == |passed| + 1;
    forall n | n in known + {output}
      ensures Follow(m, n, |more|) !in m && Follow(m, n, |more|) in known + {output}
    {
      if n in known {
        FollowStays(m, n, |passed|, |more|);
      }
    }
  }

  lemma EndAfterKept(m: Replacements, known: set<Name>, passed: set<Name>, outputs: set<Name>)
    requires KnownEnd(m, known, passed) && outputs !! m.Keys
    ensures KnownEnd(m, known + outputs, passed)
  {
  }

  lemma EndAfterOne(m: Replacements, known: set<Name>, passed: set<Name>, node: Node)
    requires KnownEnd(m, known, passed) && Consistent(m, [node]) && Ordered([node], known)
    ensures KnownEnd(m, known + Outputs(node.outputs), passed + PassedBy(node))
  {
    assert [node][0] == node;
    if node.op.Cast? {
      assert Outputs(node.outputs) == {node.outputs[0]};
      EndAfterCast(m, known, passed, node.inputs[0], node.outputs[0]);
    } else {
      assert passed + {} == passed;
      EndAfterKept(m, known, passed, Outputs(node.outputs));
    }
  }

  lemma ConsistentHead(m: Replacements, nodes: seq<Node>)
    requires Consistent(m, nodes) && nodes != []
    ensures Consistent(m, [nodes[0]]) && Consistent(m, nodes[1..])
  {
  }

  lemma KnownNamesResolve(m: Replacements, known: set<Name>, passed: set<Name>)
    requires KnownEnd(m, known, passed)
    ensures KnownResolve(m, known)
  {
    forall n | n in known
      ensures Resolves(m, n) && Resolved(m, n) in known
    {
      SubsetSize(passed, m.Keys);
      FollowStays(m, n, |passed|, |m|);
    }
  }

  // ---------------------------------------------------------------- the meaning is kept

  /** `env` is reached by the original nodes and `env'` by the rewritten ones:
      every known name means what it resolves to. */
  predicate Simulates(m: Replacements, known: set<Name>, env: Env, env': Env) {
    && env.Keys <= known && env'.Keys <= known
    && forall n | n in known :: Lookup(env, n) == Lookup(env', Resolved(m, n))
  }

  lemma CastStep(m: Replacements, known: set<Name>, env: Env, env': Env, node: Node, meaning: Meaning)
    requires Simulates(m, known, env, env') && KnownResolve(m, known + Outputs(node.outputs))
    requires Consistent(m, [node]) && Ordered([node], known) && node.op == Cast([FLOAT])
    requires var t := Lookup(env, node.inputs[0]); t.Some? ==> t.value.elemType == FLOAT
    ensures Simulates(m, known + Outputs(node.outputs), Execute(env, node, meaning), env')
  {
    assert [node][0] == node;
    var c, x := node.outputs[0], node.inputs[0];
    var next := Execute(env, node, meaning);
    var values := Apply(node.op, Args(env, node.inputs), meaning);
    assert Args(env, node.inputs)[0] == Lookup(env, x);
    BindKeys(env, node.outputs, values);
    assert values == OrElse(Lookup(env, x), []);
    assert next == if values == [] then env else env[c := values[0]];
    ResolvedOneStep(m, c);
    forall n | n in known + Outputs(node.outputs)
      ensures Lookup(next, n) == Lookup(env', Resolved(m, n))
    {
      if n != c {
        BindOther(env, node.outputs, values, n);
      }
    }
  }

  lemma ResolvedOneStep(m: Replacements, name: Name)
    requires name in m && Resolves(m, name)
    ensures Resolved(m, name) == Resolved(m, m[name])
  {
    SubsetSize({name}, m.Keys);
    FollowStays(m, m[name], |m| - 1, |m|);
  }

  lemma KeptStep(m: Replacements, known: set<Name>, env: Env, env': Env, node: Node, meaning: Meaning)
    requires Simulates(m, known, env, env') && KnownResolve(m, known)
    requires Consistent(m, [node]) && Ordered([node], known) && !node.op.Cast?
    ensures Simulates(m, known + Outputs(node.outputs),
                      Execute(env, node, meaning), Execute(env', ResolvedNode(m, node), meaning))
  {
    assert [node][0] == node;
    var inputs' := ResolvedNames(m, node.inputs);
    forall i | 0 <= i < |node.inputs|
      ensures Lookup(env, node.inputs[i]) == Lookup(env', inputs'[i])
    {
      assert inputs'[i] == Resolved(m, node.inputs[i]);
    }
    assert Args(env, node.inputs) == Args(env', inputs');
    var values := Apply(node.op, Args(env, node.inputs), meaning);
    BindKeys(env, node.outputs, values);
    BindKeys(env', node.outputs, values);
    forall n | n in known + Outputs(node.outputs)
      ensures Lookup(Bind(env, node.outputs, values), n) == Lookup(Bind(env', node.outputs, values), Resolved(m, n))
    {
      if n in known {
        BindOther(env, node.outputs, values, n);
        BindOther(env', node.outputs, values, Resolved(m, n));
      } else {
        assert n !in m;
        BindAgree(env, env', node.outputs, values, n);
      }
    }
  }

  /** The rewritten form of one node: nothing for a Cast. */
  function Rewritten(m: Replacements, node: Node): seq<Node> {
    if node.op.Cast? then [] else [ResolvedNode(m, node)]
  }

  lemma ResolvedCons(m: Replacements, node: Node, rest: seq<Node>)
    ensures ResolvedNodes(m, [node] + rest) == [ResolvedNode(m, node)] + ResolvedNodes(m, rest)
  {
    var nodes := [node] + rest;
    assert nodes[0] == node && forall i | 0 < i < |nodes| :: nodes[i] == rest[i - 1];
  }

  lemma RewrittenHead(m: Replacements, nodes: seq<Node>)
    requires nodes != []
    ensures ResolvedNodes(m, KeptNodes(nodes)) == Rewritten(m, nodes[0]) + ResolvedNodes(m, KeptNodes(nodes[1..]))
  {
    ResolvedCons(m, nodes[0], KeptNodes(nodes[1..]));
  }

  predicate CastsAreFloat(nodes: seq<Node>, types: map<Name, int>) {
    forall i | 0 <= i < |nodes| && nodes[i].op.Cast? ::
      nodes[i].op == Cast([FLOAT]) && |nodes[i].inputs| == 1 && IsFloat(types, nodes[i].inputs[0])
  }

  lemma NodeStep(m: Replacements, nodes: seq<Node>, known: set<Name>, passed: set<Name>,
                 env: Env, env': Env, types: map<Name, int>, meaning: Meaning)
    requires nodes != [] && Simulates(m, known, env, env') && KnownEnd(m, known, passed)
    requires Consistent(m, nodes) && Ordered(nodes, known)
    requires CastsAreFloat(nodes, types) && TypesHold(types, Eval(nodes, env, meaning))
    ensures Simulates(m, known + Outputs(nodes[0].outputs),
                      Execute(env, nodes[0], meaning), Eval(Rewritten(m, nodes[0]), env', meaning))
    ensures KnownEnd(m, known + Outputs(nodes[0].outputs), passed + PassedBy(nodes[0]))
  {
    var node := nodes[0];
    OneNode(m, nodes, known, passed);
    KnownNamesResolve(m, known + Outputs(node.outputs), passed + PassedBy(node));
    if node.op.Cast? {
      CastInputIsFloat(nodes, known, env, types, meaning);
      CastStep(m, known, env, env', node, meaning);
    } else {
      KeptStep(m, known, env, env', node, meaning);
      assert Rewritten(m, node)[1..] == [];
    }
  }

  /** Running the rewritten suffix in step with the original one. */
  lemma {:induction false} Simulation(m: Replacements, nodes: seq<Node>, known: set<Name>, passed: set<Name>,
                                      env: Env, env': Env, types: map<Name, int>, meaning: Meaning)
    requires Simulates(m, known, env, env') && KnownEnd(m, known, passed)
    requires Consistent(m, nodes) && Ordered(nodes, known)
    requires CastsAreFloat(nodes, types) && TypesHold(types, Eval(nodes, env, meaning))
    ensures Simulates(m, FinallyKnown(nodes, known), Eval(nodes, env, meaning),
                      Eval(ResolvedNodes(m, KeptNodes(nodes)), env', meaning))
    decreases |nodes|
  {
    if nodes == [] {
      assert ResolvedNodes(m, KeptNodes(nodes)) == [];
    } else {
      NodeStep(m, nodes, known, passed, env, env', types, meaning);
      ConsistentHead(m, nodes);
      var next' := Eval(Rewritten(m, nodes[0]), env', meaning);
      Simulation(m, nodes[1..], known + Outputs(nodes[0].outputs), passed + PassedBy(nodes[0]),
                 Execute(env, nodes[0], meaning), next', types, meaning);
      RewrittenHead(m, nodes);
      EvalAppend(Rewritten(m, nodes[0]), ResolvedNodes(m, KeptNodes(nodes[1..])), env', meaning);
    }
  }

  lemma CastInputIsFloat(nodes: seq<Node>, known: set<Name>, env: Env, types: map<Name, int>, meaning: Meaning)
    requires nodes != [] && Ordered(nodes, known) && nodes[0].op.Cast? && |nodes[0].inputs| == 1
    requires IsFloat(types, nodes[0].inputs[0]) && TypesHold(types, Eval(nodes, env, meaning))
    requires env.Keys <= known
    ensures var t := Lookup(env, nodes[0].inputs[0]); t.Some? ==> t.value.elemType == FLOAT
  {
    var x := nodes[0].inputs[0];
    if Lookup(env, x).Some? {
      KnownIsKept(nodes, known, env, meaning, x);
    }
  }

  lemma {:induction false} InitializerKeys(env: Env, initializers: seq<Initializer>)
    ensures WithInitializers(env, initializers).Keys <= env.Keys + InitializerNames(initializers)
    decreases |initializers|
  {
    if initializers != [] {
      InitializerKeys(env[initializers[0].name := initializers[0].tensor], initializers[1..]);
    }
  }

  lemma InitiallyKept(g: Graph)
    requires WellFormed(g) && AllCastsRedundant(g, |g.nodes|)
    ensures InitiallyKnown(g) !! CastReplacements(g.nodes).Keys
    ensures KnownEnd(CastReplacements(g.nodes), InitiallyKnown(g), {})
  {
    var m := CastReplacements(g.nodes);
    forall n | n in InitiallyKnown(g)
      ensures n !in m
    {
      ReplacementOrigin(g.nodes, n);
      if n in m {
        var i :| 0 <= i < |g.nodes| && IsCast(g.nodes[i]) && g.nodes[i].outputs[0] == n;
        GraphIsConsistent(g);
        assert n in Outputs(g.nodes[i].outputs);
        OutputsAreNew(g.nodes, InitiallyKnown(g), i);
        assert false;
      }
    }
  }

  /** Main result: whatever the other operators mean, every tensor that is kept,
      and so every graph output, is computed unchanged; and a removed tensor
      equals the tensor that now stands for it. */
  lemma CastRemovalPreservesMeaning(g: Graph, feed: Env, meaning: Meaning)
    requires WellFormed(g) && AllCastsRedundant(g, |g.nodes|)
    requires feed.Keys <= InputNames(g) && TypesHold(ValueTypes(g), Run(g, feed, meaning))
    ensures forall n ::
      Lookup(Run(g, feed, meaning), n)
      == Lookup(Run(WithoutCasts(g), feed, meaning), Resolved(CastReplacements(g.nodes), n))
    ensures forall n | n !in CastReplacements(g.nodes) ::
      Lookup(Run(g, feed, meaning), n) == Lookup(Run(WithoutCasts(g), feed, meaning), n)
    ensures forall n | n in OutputNames(g) ::
      Lookup(Run(g, feed, meaning), n) == Lookup(Run(WithoutCasts(g), feed, meaning), n)
  {
    var m, known := CastReplacements(g.nodes), InitiallyKnown(g);
    var env := WithInitializers(feed, g.initializers);
    GraphIsConsistent(g);
    InitiallyKept(g);
    InitializerKeys(feed, g.initializers);
    assert InitiallyKnown(g) == InitiallyKnown(WithoutCasts(g));
    forall n | n in known
      ensures Resolved(m, n) == n
    {
      assert n !in m;
    }
    Simulation(m, g.nodes, known, {}, env, env, ValueTypes(g), meaning);
    ReplacedAreKnown(g);
  }

  lemma ReplacedAreKnown(g: Graph)
    requires WellFormed(g) && AllCastsRedundant(g, |g.nodes|)
    ensures forall n | n in CastReplacements(g.nodes) ::
      n in FinallyKnown(g.nodes, InitiallyKnown(g)) && n !in OutputNames(g)
  {
    forall n | n in CastReplacements(g.nodes)
      ensures n in FinallyKnown(g.nodes, InitiallyKnown(g)) && n !in OutputNames(g)
    {
      GraphIsConsistent(g);
      ReplacementOrigin(g.nodes, n);
      var i :| 0 <= i < |g.nodes| && IsCast(g.nodes[i]) && g.nodes[i].outputs[0] == n;
      OutputsAreNew(g.nodes, InitiallyKnown(g), i);
      assert n in Outputs(g.nodes[i].outputs);
    }
  }

  /** The removal never reports a cycle on a graph in topological order. */
  lemma NoCycleInOrder(g: Graph)
    requires WellFormed(g) && AllCastsRedundant(g, |g.nodes|)
    ensures AllInputsResolve(CastReplacements(g.nodes), KeptNodes(g.nodes))
  {
    GraphIsConsistent(g);
    InitiallyKept(g);
    InputsResolve(CastReplacements(g.nodes), g.nodes, InitiallyKnown(g), {});
  }

  lemma {:induction false} InputsResolve(m: Replacements, nodes: seq<Node>, known: set<Name>, passed: set<Name>)
    requires KnownEnd(m, known, passed) && Consistent(m, nodes) && Ordered(nodes, known)
    ensures AllInputsResolve(m, KeptNodes(nodes))
    decreases |nodes|
  {
    if nodes != [] {
      OneNode(m, nodes, known, passed);
      InputsResolve(m, nodes[1..], known + Outputs(nodes[0].outputs), passed + PassedBy(nodes[0]));
      assert forall j | 0 <= j < |nodes[0].inputs| :: Resolves(m, nodes[0].inputs[j]);
    }
  }

  /** The rewritten nodes are in order, define each name once and use no name
      that was removed; each removed Cast accounts for one replacement. */
  lemma CastRemovalKeepsOrder(g: Graph)
    requires WellFormed(g) && AllCastsRedundant(g, |g.nodes|)
    ensures Ordered(WithoutCasts(g).nodes, InitiallyKnown(WithoutCasts(g)))
    ensures forall i, j | 0 <= i < |WithoutCasts(g).nodes| && 0 <= j < |WithoutCasts(g).nodes[i].inputs| ::
      WithoutCasts(g).nodes[i].inputs[j] !in CastReplacements(g.nodes)
    ensures |WithoutCasts(g).nodes| + |CastReplacements(g.nodes)| == |g.nodes|
  {
    var m := CastReplacements(g.nodes);
    GraphIsConsistent(g);
    InitiallyKept(g);
    NoCycleInOrder(g);
    KeptInOrder(m, g.nodes, InitiallyKnown(g), {});
    assert StillKnown(m, InitiallyKnown(g)) == InitiallyKnown(g) == InitiallyKnown(WithoutCasts(g));
    forall i, j | 0 <= i < |WithoutCasts(g).nodes| && 0 <= j < |WithoutCasts(g).nodes[i].inputs|
      ensures WithoutCasts(g).nodes[i].inputs[j] !in m
    {
      assert Resolves(m, KeptNodes(g.nodes)[i].inputs[j]);
    }
    ReplacementsAreCasts(g);
    CastsAndKept(g.nodes);
  }

  /** The known names that the rewritten graph still has. */
  function StillKnown(m: Replacements, known: set<Name>): set<Name> {
    known - m.Keys
  }

  lemma StillKnownNext(m: Replacements, known: set<Name>, node: Node)
    requires Consistent(m, [node])
    ensures StillKnown(m, known + Outputs(node.outputs))
         == if node.op.Cast? then StillKnown(m, known) else StillKnown(m, known) + Outputs(node.outputs)
  {
    assert [node][0] == node;
  }

  lemma HeadInOrder(m: Replacements, node: Node, known: set<Name>)
    requires KnownResolve(m, known) && Ordered([node], known) && "" !in m
    ensures forall i | 0 <= i < |node.inputs| ::
      ResolvedNode(m, node).inputs[i] == "" || ResolvedNode(m, node).inputs[i] in StillKnown(m, known)
    ensures FreshOutputs(node.outputs, StillKnown(m, known))
  {
    assert [node][0] == node;
    forall i | 0 <= i < |node.inputs|
      ensures ResolvedNode(m, node).inputs[i] == "" || ResolvedNode(m, node).inputs[i] in StillKnown(m, known)
    {
      assert ResolvedNode(m, node).inputs[i] == Resolved(m, node.inputs[i]);
    }
  }

  lemma NodeInOrder(m: Replacements, node: Node, rest: seq<Node>, known: set<Name>)
    requires KnownResolve(m, known) && Ordered([node], known) && Consistent(m, [node])
    requires Ordered(rest, StillKnown(m, known + Outputs(node.outputs)))
    ensures Ordered(Rewritten(m, node) + rest, StillKnown(m, known))
  {
    StillKnownNext(m, known, node);
    if node.op.Cast? {
      assert [] + rest == rest;
    } else {
      HeadInOrder(m, node, known);
      OrderedCons(ResolvedNode(m, node), rest, StillKnown(m, known));
    }
  }

  lemma {:induction false} KeptInOrder(m: Replacements, nodes: seq<Node>, known: set<Name>, passed: set<Name>)
    requires KnownEnd(m, known, passed) && Consistent(m, nodes) && Ordered(nodes, known)
    ensures Ordered(ResolvedNodes(m, KeptNodes(nodes)), StillKnown(m, known))
    decreases |nodes|
  {
    if nodes != [] {
      OneNode(m, nodes, known, passed);
      KeptInOrder(m, nodes[1..], known + Outputs(nodes[0].outputs), passed + PassedBy(nodes[0]));
      NodeInOrder(m, nodes[0], ResolvedNodes(m, KeptNodes(nodes[1..])), known);
      RewrittenHead(m, nodes);
    }
  }

  /** All that one node of an ordered list contributes. */
  lemma OneNode(m: Replacements, nodes: seq<Node>, known: set<Name>, passed: set<Name>)
    requires nodes != [] && KnownEnd(m, known, passed) && Consistent(m, nodes) && Ordered(nodes, known)
    ensures KnownResolve(m, known) && Ordered([nodes[0]], known)
    ensures Consistent(m, [nodes[0]]) && Consistent(m, nodes[1..])
    ensures KnownEnd(m, known + Outputs(nodes[0].outputs), passed + PassedBy(nodes[0]))
    ensures Ordered(nodes[1..], known + Outputs(nodes[0].outputs))
  {
    ConsistentHead(m, nodes);
    assert Ordered([nodes[0]], known);
    EndAfterOne(m, known, passed, nodes[0]);
    KnownNamesResolve(m, known, passed);
  }

  lemma OrderedCons(node: Node, rest: seq<Node>, known: set<Name>)
    requires forall i | 0 <= i < |node.inputs| :: node.inputs[i] == "" || node.inputs[i] in known
    requires FreshOutputs(node.outputs, known) && Ordered(rest, known + Outputs(node.outputs))
    ensures Ordered([node] + rest, known)
  {
    assert ([node] + rest)[1..] == rest;
  }

  function CastCount(nodes: seq<Node>): nat {
    if nodes == [] then 0
    else CastCount(nodes[..|nodes| - 1]) + if nodes[|nodes| - 1].op.Cast? then 1 else 0
  }

  lemma {:induction false} CastsAndKept(nodes: seq<Node>)
    ensures |KeptNodes(nodes)| + CastCount(nodes) == |nodes|
  {
    if nodes != [] {
      var n := |nodes| - 1;
      CastsAndKept(nodes[..n]);
      assert nodes == nodes[..n] + [nodes[n]];
      KeptNodesAppend(nodes[..n], nodes[n]);
    }
  }

  lemma ReplacementsAreCasts(g: Graph)
    requires WellFormed(g) && AllCastsRedundant(g, |g.nodes|)
    ensures |CastReplacements(g.nodes)| == CastCount(g.nodes)
  {
    assert g.nodes[..|g.nodes|] == g.nodes;
    PrefixReplacements(g, |g.nodes|);
  }

  lemma {:induction false} PrefixReplacements(g: Graph, n: nat)
    requires WellFormed(g) && AllCastsRedundant(g, |g.nodes|) && n <= |g.nodes|
    ensures |CastReplacements(g.nodes[..n])| == CastCount(g.nodes[..n])
  {
    if n > 0 {
      PrefixReplacements(g, n - 1);
      PrefixStep(g.nodes, n - 1);
      assert g.nodes[..n][..n - 1] == g.nodes[..n - 1];
      if g.nodes[n - 1].op.Cast? {
        NewReplacement(g, n - 1);
      }
    }
  }

  lemma NewReplacement(g: Graph, n: nat)
    requires WellFormed(g) && AllCastsRedundant(g, |g.nodes|) && n < |g.nodes| && g.nodes[n].op.Cast?
    ensures g.nodes[n].outputs[0] !in CastReplacements(g.nodes[..n])
  {
    var c, before := g.nodes[n].outputs[0], g.nodes[..n];
    GraphIsConsistent(g);
    ReplacementOrigin(before, c);
    if c in CastReplacements(before) {
      var i :| 0 <= i < n && IsCast(before[i]) && before[i].outputs[0] == c;
      SameOutputSameNode(g.nodes, InitiallyKnown(g), i, n, c);
      assert false;
    }
  }
}
