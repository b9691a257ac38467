/** A graph on which the replacement of the Reshapes loses a graph output
    (dev/windows/rife_fp16_io_wrapper.py): the shape constant of one Reshape is
    an output of the graph, and the Reshape is its only consumer. */
module WarpExample {
  import opened Wrappers
  import opened OnnxGraph
  import opened WarpReshape

  const SHAPE := Tensor(INT64, [4], WARP_SHAPE)

  function NameOf(k: nat): Name
    requires k < 10
  {
    ['a' + k as char]
  }

  /** One GridSample, four shape constants and four Reshapes of the sample. Node k
      computes name k + 1; name 0 is the input. */
  function NodeAt(k: nat): Node
    requires k < 9
  {
    if k == 0 then Node("", Other("GridSample", ""), [NameOf(0)], [NameOf(1)])
    else if k < 5 then Node("", Constant(Some(SHAPE)), [], [NameOf(k + 1)])
    else Node("", Reshape(false), [NameOf(1), NameOf(k - 3)], [NameOf(k + 1)])
  }

  const NODES := seq(9, k requires 0 <= k < 9 => NodeAt(k))

  const EXAMPLE := Graph([ValueInfo(NameOf(0), FLOAT)],
                         [ValueInfo(NameOf(9), FLOAT), ValueInfo(NameOf(2), INT64)], [], [], NODES)

  lemma NamesDiffer(i: nat, j: nat)
    requires i < 10 && j < 10 && i != j
    ensures NameOf(i) != NameOf(j)
  {
    assert NameOf(i)[0] != NameOf(j)[0];
  }

  // ---------------------------------------------------------------- the graph is in order

  function NamesUpTo(n: nat): set<Name>
    requires n <= 10
  {
    set k | 0 <= k < n :: NameOf(k)
  }

  lemma NewName(n: nat)
    requires n < 10
    ensures NameOf(n) !in NamesUpTo(n) && NamesUpTo(n + 1) == NamesUpTo(n) + {NameOf(n)}
  {
    forall k | 0 <= k < n
      ensures NameOf(k) != NameOf(n)
    {
      NamesDiffer(k, n);
    }
  }

  lemma {:induction false} OrderedFrom(k: nat)
    requires k <= 9
    ensures Ordered(NODES[k..], NamesUpTo(k + 1))
    decreases 9 - k
  {
    if k < 9 {
      OrderedFrom(k + 1);
      NewName(k + 1);
      assert NODES[k..][0] == NodeAt(k) && NODES[k..][1..] == NODES[k + 1..];
      assert NameOf(0) in NamesUpTo(k + 1);
      assert Outputs([NameOf(k + 1)]) == {NameOf(k + 1)};
      forall i | 0 <= i < |NodeAt(k).inputs|
        ensures NodeAt(k).inputs[i] in NamesUpTo(k + 1)
      {
        if k >= 5 {
          assert NodeAt(k).inputs[i] == NameOf(if i == 0 then 1 else k - 3);
        }
      }
    }
  }

  lemma IsOrdered()
    ensures Ordered(NODES, InitiallyKnown(EXAMPLE))
  {
    OrderedFrom(0);
    assert NODES[0..] == NODES;
    KnownAtFirst();
  }

  lemma KnownAtFirst()
    ensures InitiallyKnown(EXAMPLE) == NamesUpTo(1) == {NameOf(0)}
  {
    assert EXAMPLE.inputs[0] in EXAMPLE.inputs;
    assert NameOf(0) in NamesUpTo(1);
  }

  // ---------------------------------------------------------------- its targets

  lemma {:induction false} ProducedByKeeps(producers: map<Name, Node>, node: Node, count: nat, name: Name)
    requires count <= |node.outputs| && name in producers && name !in node.outputs
    ensures name in ProducedBy(producers, node, count) && ProducedBy(producers, node, count)[name] == producers[name]
    decreases count
  {
    if count > 0 {
      ProducedByKeeps(producers, node, count - 1, name);
    }
  }

  lemma {:induction false} OnlyProducer(nodes: seq<Node>, i: nat, name: Name)
    requires i < |nodes| && nodes[i].outputs == [name] && name != ""
    requires forall k | i < k < |nodes| :: name !in nodes[k].outputs
    ensures name in Producers(nodes) && Producers(nodes)[name] == nodes[i]
  {
    var n := |nodes| - 1;
    if i < n {
      assert nodes[..n][i] == nodes[i];
      OnlyProducer(nodes[..n], i, name);
      ProducedByKeeps(Producers(nodes[..n]), nodes[n], |nodes[n].outputs|, name);
    } else {
      assert ProducedBy(Producers(nodes[..n]), nodes[n], 1)
          == ProducedBy(Producers(nodes[..n]), nodes[n], 0)[name := nodes[n]];
    }
  }

  lemma TargetsAreReshapes(k: nat)
    requires k < 9
    ensures IsTarget(NODES, NODES[k]) <==> k >= 5
  {
    if k >= 5 {
      forall j | k - 4 < j < 9
        ensures NameOf(k - 3) !in NODES[j].outputs
      {
        NamesDiffer(k - 3, j + 1);
      }
      OnlyProducer(NODES, k - 4, NameOf(k - 3));
      assert IsGridSample(NODES[0]) && NODES[0].outputs[0] == NameOf(1);
      assert NameOf(1) in GridOutputs(NODES);
    }
  }

  lemma {:induction false} NoConsumer(nodes: seq<Node>, name: Name)
    requires forall k | 0 <= k < |nodes| :: Uses(nodes[k].inputs, name) == 0
    ensures Consumers(nodes, name) == 0
  {
    if nodes != [] {
      NoConsumer(nodes[..|nodes| - 1], name);
    }
  }

  lemma {:induction false} OneConsumer(nodes: seq<Node>, i: nat, name: Name)
    requires i < |nodes| && Uses(nodes[i].inputs, name) == 1
    requires forall k | 0 <= k < |nodes| && k != i :: Uses(nodes[k].inputs, name) == 0
    ensures Consumers(nodes, name) == 1
  {
    var n := |nodes| - 1;
    if i < n {
      OneConsumer(nodes[..n], i, name);
    } else {
      NoConsumer(nodes[..n], name);
    }
  }

  lemma UsesOfTwo(a: Name, b: Name, name: Name)
    ensures Uses([a, b], name) == (if a == name then 1 else 0) + (if b == name then 1 else 0)
    ensures Uses([a], name) == (if a == name then 1 else 0)
  {
    assert [a, b][..1] == [a] && [a][..0] == [];
    assert Uses([a], name) == Uses([], name) + if a == name then 1 else 0;
  }

  lemma ShapeUses(k: nat, j: nat)
    requires 5 <= k < 9 && j < 9
    ensures Uses(NODES[j].inputs, NameOf(k - 3)) == if j == k then 1 else 0
  {
    if j == 0 {
      NamesDiffer(0, k - 3);
      UsesOfTwo(NameOf(0), NameOf(0), NameOf(k - 3));
    } else if j >= 5 {
      UsesOfTwo(NameOf(1), NameOf(j - 3), NameOf(k - 3));
      NamesDiffer(1, k - 3);
      if j != k {
        NamesDiffer(j - 3, k - 3);
      }
    }
  }

  lemma ShapesAreUsedOnce()
    ensures SingleConsumers(NODES, 9)
  {
    forall k | 0 <= k < 9 && IsTarget(NODES, NODES[k])
      ensures Consumers(NODES, NODES[k].inputs[1]) == 1
    {
      TargetsAreReshapes(k);
      forall j | 0 <= j < 9
        ensures Uses(NODES[j].inputs, NameOf(k - 3)) == if j == k then 1 else 0
      {
        ShapeUses(k, j);
      }
      OneConsumer(NODES, k, NameOf(k - 3));
    }
  }

  lemma {:induction false} TargetsUpTo(n: nat)
    requires n <= 9
    ensures |Targets(NODES, n)| == if n <= 5 then 0 else n - 5
    ensures forall k | n < k <= 9 :: NameOf(k) !in Targets(NODES, n)
  {
    if n > 0 {
      TargetsUpTo(n - 1);
      TargetsAreReshapes(n - 1);
      forall k | n < k <= 9
        ensures NameOf(k) != NameOf(n)
      {
        NamesDiffer(k, n);
      }
    }
  }

  lemma IsAccepted()
    ensures Accepted(NODES)
  {
    ShapesAreUsedOnce();
    TargetsUpTo(9);
  }

  // ---------------------------------------------------------------- the lost output

  lemma GeneratedAreLonger()
    ensures forall name | name in GeneratedNames(EXAMPLE) :: |name| > 1
  {
  }

  lemma NothingGenerated(k: nat, generated: set<Name>)
    requires k < 9 && forall name | name in generated :: |name| > 1
    ensures MentionsNone(NODES[k], generated)
  {
    assert forall name | name in NODES[k].inputs :: |name| == 1;
    assert forall name | name in NODES[k].outputs :: |name| == 1;
  }

  lemma InputNotGenerated(generated: set<Name>)
    requires forall name | name in generated :: |name| > 1
    ensures InitiallyKnown(EXAMPLE) !! generated
  {
    KnownAtFirst();
    assert |NameOf(0)| == 1;
  }

  lemma IsWellFormed()
    ensures WellFormed(EXAMPLE)
  {
    IsOrdered();
    GeneratedAreLonger();
    InputNotGenerated(GeneratedNames(EXAMPLE));
    forall k | 0 <= k < 9
      ensures MentionsNone(NODES[k], GeneratedNames(EXAMPLE))
      ensures |NODES[k].outputs| == 1 && NODES[k].outputs[0] != ""
    {
      NothingGenerated(k, GeneratedNames(EXAMPLE));
    }
  }

  lemma ShapeIsComputed(feed: Env, meaning: Meaning)
    ensures Lookup(Run(EXAMPLE, feed, meaning), NameOf(2)) == Some(SHAPE)
  {
    var env := Execute(feed, NodeAt(0), meaning);
    var bound := Execute(env, NodeAt(1), meaning);
    OneBinding(env, NameOf(2), SHAPE);
    assert NODES[0] == NodeAt(0) && NODES[1..][0] == NodeAt(1) && NODES[1..][1..] == NODES[2..];
    assert Eval(NODES, feed, meaning) == Eval(NODES[1..], env, meaning) == Eval(NODES[2..], bound, meaning);
    OrderedFrom(2);
    assert NameOf(2) in NamesUpTo(3);
    KnownIsKept(NODES[2..], NamesUpTo(3), bound, meaning, NameOf(2));
  }

  /** The rewrite accepts this graph, and the rewritten graph no longer computes one of
      its outputs, whatever is fed and whatever the other operators mean. */
  lemma GraphOutputIsLost(feed: Env, meaning: Meaning)
    requires feed.Keys <= InputNames(EXAMPLE)
    ensures WellFormed(EXAMPLE) && Accepted(EXAMPLE.nodes)
    ensures ValueInfo(NameOf(2), INT64) in WithSplits(EXAMPLE).outputs
    ensures Lookup(Run(EXAMPLE, feed, meaning), NameOf(2)) == Some(SHAPE)
    ensures Lookup(Run(WithSplits(EXAMPLE), feed, meaning), NameOf(2)) == None
  {
    IsWellFormed();
    IsAccepted();
    ShapeIsComputed(feed, meaning);
    TargetsAreReshapes(5);
    TargetsComplete(NODES, 9, 5);
    RemovedShapeIsLost(EXAMPLE, feed, meaning, NameOf(2));
    assert EXAMPLE.outputs[1] in EXAMPLE.outputs;
  }
}
