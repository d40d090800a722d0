/**
 * Python syntax trees as the finder sees them, and the order in which
 * `ast.walk` visits their nodes.
 */
module PythonAst {

  /** The node classes the finder tells apart; every other class is `Other`. */
  datatype PyKind = Call | Name(id: string) | Attribute(attr: string) | Other(cls: string)

  /**
   * A node: its class, its `lineno`, and its child nodes in the order
   * `ast.iter_child_nodes` yields them. For a Call that order starts with
   * the `func` field, so the callee is the first child.
   */
  datatype PyNode = PyNode(kind: PyKind, lineno: int, children: seq<PyNode>)

  /** The number of nodes in a tree. */
  function Size(n: PyNode): (k: nat)
    ensures k >= 1
  {
    1 + SizeAll(n.children)
  }

  /** The number of nodes in a forest. */
  function SizeAll(ns: seq<PyNode>): nat {
    if ns == [] then 0 else Size(ns[0]) + SizeAll(ns[1..])
  }

  lemma {:induction false} SizeAllConcat(a: seq<PyNode>, b: seq<PyNode>)
    ensures SizeAll(a + b) == SizeAll(a) + SizeAll(b)
  {
    if a == [] {
      assert a + b == b;
    } else {
      assert (a + b)[0] == a[0];
      assert (a + b)[1..] == a[1..] + b;
      SizeAllConcat(a[1..], b);
    }
  }

  /** Every node of a tree, parent before descendants: the reference list of "all nodes". */
  function PreOrder(n: PyNode): (r: seq<PyNode>)
    ensures |r| == Size(n) && r[0] == n
  {
    [n] + PreOrderAll(n.children)
  }

  /** Every node of a forest, tree after tree. */
  function PreOrderAll(ns: seq<PyNode>): (r: seq<PyNode>)
    ensures |r| == SizeAll(ns)
  {
    if ns == [] then [] else PreOrder(ns[0]) + PreOrderAll(ns[1..])
  }

  lemma {:induction false} PreOrderAllConcat(a: seq<PyNode>, b: seq<PyNode>)
    ensures PreOrderAll(a + b) == PreOrderAll(a) + PreOrderAll(b)
  {
    if a == [] {
      assert a + b == b;
    } else {
      assert (a + b)[0] == a[0];
      assert (a + b)[1..] == a[1..] + b;
      PreOrderAllConcat(a[1..], b);
    }
  }

  /** Popping the front node and queueing its children leaves one node less to visit. */
  lemma PopShrinks(queue: seq<PyNode>)
    requires queue != []
    ensures SizeAll(queue[1..] + queue[0].children) == SizeAll(queue) - 1
  {
    SizeAllConcat(queue[1..], queue[0].children);
  }

  /**
   * What `ast.walk` yields when its worklist holds `queue`: it pops the
   * front node, appends that node's children at the back, and yields the
   * node (breadth-first order).
   */
  function Bfs(queue: seq<PyNode>): (r: seq<PyNode>)
    ensures |r| == SizeAll(queue)
    decreases SizeAll(queue)
  {
    if queue == [] then []
    else
      PopShrinks(queue);
      [queue[0]] + Bfs(queue[1..] + queue[0].children)
  }

  /** `ast.walk(tree)`: one node per node of the tree, the tree itself first. */
  function Walk(tree: PyNode): (r: seq<PyNode>)
    ensures |r| == Size(tree) && r[0] == tree
  {
    assert [tree][1..] == [];
    assert SizeAll([tree]) == Size(tree) + SizeAll([]);
    Bfs([tree])
  }

  /** The worklist is first-in first-out: whatever is queued is yielded before anything queued later. */
  lemma {:induction false} BfsKeepsQueueOrder(queue: seq<PyNode>)
    ensures |Bfs(queue)| >= |queue|
    ensures Bfs(queue)[..|queue|] == queue
    decreases SizeAll(queue)
  {
    if queue != [] {
      var next := queue[1..] + queue[0].children;
      PopShrinks(queue);
      BfsKeepsQueueOrder(next);
      assert Bfs(queue) == [queue[0]] + Bfs(next);
      assert Bfs(next)[..|queue| - 1] == queue[1..] by {
        assert Bfs(next)[..|queue| - 1] == Bfs(next)[..|next|][..|queue| - 1];
      }
      assert Bfs(queue)[..|queue|] == [queue[0]] + Bfs(next)[..|queue| - 1];
    }
  }

  /** The worklist yields exactly the nodes of the queued trees, each occurrence once. */
  lemma {:induction false} BfsVisitsEachNodeOnce(queue: seq<PyNode>)
    ensures multiset(Bfs(queue)) == multiset(PreOrderAll(queue))
    ensures |Bfs(queue)| == SizeAll(queue)
    decreases SizeAll(queue)
  {
    if queue != [] {
      var next := queue[1..] + queue[0].children;
      PopShrinks(queue);
      BfsVisitsEachNodeOnce(next);
      PreOrderAllConcat(queue[1..], queue[0].children);
      calc {
        multiset(Bfs(queue));
        multiset([queue[0]]) + multiset(Bfs(next));
        multiset([queue[0]]) + multiset(PreOrderAll(queue[1..])) + multiset(PreOrderAll(queue[0].children));
        multiset(PreOrder(queue[0]) + PreOrderAll(queue[1..]));
        multiset(PreOrderAll(queue));
      }
    }
  }

  /** `ast.walk` visits every node of the tree exactly once. */
  lemma WalkVisitsEachNodeOnce(tree: PyNode)
    ensures multiset(Walk(tree)) == multiset(PreOrder(tree))
    ensures |Walk(tree)| == Size(tree)
  {
    BfsVisitsEachNodeOnce([tree]);
    assert [tree][1..] == [];
    assert PreOrderAll([tree]) == PreOrder(tree) + PreOrderAll([]);
  }

  /** `ast.walk` yields the root first and then the root's children, in order, before anything deeper. */
  lemma WalkStartsWithRootThenChildren(tree: PyNode)
    ensures |Walk(tree)| >= 1 + |tree.children|
    ensures Walk(tree)[..1 + |tree.children|] == [tree] + tree.children
  {
    assert [tree][1..] + [tree][0].children == tree.children;
    assert Walk(tree) == [tree] + Bfs(tree.children);
    BfsKeepsQueueOrder(tree.children);
  }
}
