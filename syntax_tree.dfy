/**
 * tree-sitter syntax trees as the JavaScript and shell finders see them:
 * typed nodes with byte spans, start rows, field-labelled children, and
 * the pre-order traversal both finders perform.
 */
module SyntaxTree {
  import opened Wrappers
  import opened SeqUtil

  /** A byte of UTF-8 encoded source. */
  newtype byte = x: int | 0 <= x < 256

  type Bytes = seq<byte>

  /**
   * A node: its grammar type, the field name under which its parent holds it
   * (if any), its byte span `[startByte, endByte)`, its 0-based start row,
   * and its children in source order.
   */
  datatype Node = Node(kind: string, field: Option<string>, startByte: nat, endByte: nat,
                       startRow: nat, children: seq<Node>)

  /** A parse result; tree-sitter always gives a tree a root node. */
  datatype Tree = Tree(root: Node)

  /** A raw finding: the node, the pattern kind, and the 1-based line reported. */
  datatype Finding = Finding(node: Node, kind: string, line: int)

  /** The line a finder reports for a node: its start row plus one. */
  function Line(n: Node): (line: int)
    ensures line >= 1
  {
    n.startRow + 1
  }

  /** `node.child_by_field_name(name)`: the first child held under field `name`. */
  function ChildByFieldName(n: Node, name: string): (r: Option<Node>)
    ensures r.Some? ==> r.value in n.children && r.value.field == Some(name)
    ensures r.None? <==> forall i :: 0 <= i < |n.children| ==> n.children[i].field != Some(name)
  {
    FirstWithField(n.children, name)
  }

  function FirstWithField(ns: seq<Node>, name: string): (r: Option<Node>)
    ensures r.Some? ==> r.value in ns && r.value.field == Some(name)
    ensures r.None? <==> forall i :: 0 <= i < |ns| ==> ns[i].field != Some(name)
  {
    if ns == [] then None
    else if ns[0].field == Some(name) then Some(ns[0])
    else FirstWithField(ns[1..], name)
  }

  /** Python's `b[start:stop]` for non-negative bounds: both bounds are clamped to the length. */
  function Slice(b: Bytes, start: nat, stop: nat): (r: Bytes)
    ensures start <= stop <= |b| ==> r == b[start..stop]
    ensures |r| == if start >= stop || start >= |b| then 0 else (if stop <= |b| then stop else |b|) - start
  {
    var lo := if start <= |b| then start else |b|;
    var hi := if stop <= |b| then stop else |b|;
    if lo <= hi then b[lo..hi] else []
  }

  /** The text of a node, as `get_text` decodes its bytes with errors ignored. */
  function Text(n: Node, bytes: Bytes, decodeIgnore: Bytes -> string): string {
    decodeIgnore(Slice(bytes, n.startByte, n.endByte))
  }

  /** Every node of a tree, parent before descendants. */
  function PreOrder(n: Node): (r: seq<Node>)
    ensures r != [] && r[0] == n
  {
    [n] + PreOrderAll(n.children)
  }

  function PreOrderAll(ns: seq<Node>): seq<Node> {
    if ns == [] then [] else PreOrder(ns[0]) + PreOrderAll(ns[1..])
  }

  /**
   * What a recursive `traverse(node)` appends when `visit` says what each
   * node contributes: the node's own findings, then each child's traversal.
   */
  function Traversal(visit: Node -> seq<Finding>, n: Node): seq<Finding> {
    visit(n) + TraversalAll(visit, n.children)
  }

  function TraversalAll(visit: Node -> seq<Finding>, ns: seq<Node>): seq<Finding> {
    if ns == [] then [] else Traversal(visit, ns[0]) + TraversalAll(visit, ns[1..])
  }

  /** Traversing a forest piecewise gives the concatenation of the pieces. */
  lemma {:induction false} TraversalAllConcat(visit: Node -> seq<Finding>, a: seq<Node>, b: seq<Node>)
    ensures TraversalAll(visit, a + b) == TraversalAll(visit, a) + TraversalAll(visit, b)
  {
    if a == [] {
      assert a + b == b;
    } else {
      assert (a + b)[0] == a[0];
      assert (a + b)[1..] == a[1..] + b;
      TraversalAllConcat(visit, a[1..], b);
    }
  }

  /** Traversing one more child appends that child's traversal. */
  lemma TraversalAllSnoc(visit: Node -> seq<Finding>, ns: seq<Node>, i: nat)
    requires i < |ns|
    ensures TraversalAll(visit, ns[..i + 1]) == TraversalAll(visit, ns[..i]) + Traversal(visit, ns[i])
  {
    assert ns[..i + 1] == ns[..i] + [ns[i]];
    TraversalAllConcat(visit, ns[..i], [ns[i]]);
    assert TraversalAll(visit, [ns[i]]) == Traversal(visit, ns[i]) + TraversalAll(visit, []);
  }

  /** Recursive traversal visits the nodes in pre-order: it equals visiting the pre-order node list one by one. */
  lemma {:induction false} TraversalIsPreOrder(visit: Node -> seq<Finding>, n: Node)
    ensures Traversal(visit, n) == FlatMap(visit, PreOrder(n))
    decreases n, 1
  {
    TraversalAllIsPreOrder(visit, n.children);
    assert PreOrder(n)[0] == n && PreOrder(n)[1..] == PreOrderAll(n.children);
  }

  lemma {:induction false} TraversalAllIsPreOrder(visit: Node -> seq<Finding>, ns: seq<Node>)
    ensures TraversalAll(visit, ns) == FlatMap(visit, PreOrderAll(ns))
    decreases ns, 0
  {
    if ns != [] {
      TraversalIsPreOrder(visit, ns[0]);
      TraversalAllIsPreOrder(visit, ns[1..]);
      FlatMapConcat(visit, PreOrder(ns[0]), PreOrderAll(ns[1..]));
    }
  }

  /**
   * A finding is reported exactly when some node of the tree contributes it;
   * and when each node contributes at most one, there are no more findings than nodes.
   */
  lemma TraversalFindsExactly(visit: Node -> seq<Finding>, root: Node, f: Finding)
    ensures f in Traversal(visit, root) <==> exists m :: m in PreOrder(root) && f in visit(m)
    ensures (forall m :: m in PreOrder(root) ==> |visit(m)| <= 1) ==>
            |Traversal(visit, root)| <= |PreOrder(root)|
  {
    TraversalIsPreOrder(visit, root);
    FlatMapMembership(visit, PreOrder(root), f);
    if exists m :: m in PreOrder(root) && f in visit(m) {
      var m :| m in PreOrder(root) && f in visit(m);
      var i :| 0 <= i < |PreOrder(root)| && PreOrder(root)[i] == m;
    }
    if forall m :: m in PreOrder(root) ==> |visit(m)| <= 1 {
      FlatMapAtMostOne(visit, PreOrder(root));
    }
  }

  /**
   * When every node contributes at most one finding, a finding is reported
   * exactly when some node contributes it alone, and there are no more
   * findings than nodes.
   */
  lemma TraversalFindsSingletons(visit: Node -> seq<Finding>, root: Node, f: Finding)
    requires forall m :: m in PreOrder(root) ==> |visit(m)| <= 1
    ensures f in Traversal(visit, root) <==> exists m :: m in PreOrder(root) && visit(m) == [f]
    ensures |Traversal(visit, root)| <= |PreOrder(root)|
  {
    TraversalFindsExactly(visit, root, f);
    if f in Traversal(visit, root) {
      var m :| m in PreOrder(root) && f in visit(m);
      assert visit(m) == [f];
    }
    if exists m :: m in PreOrder(root) && visit(m) == [f] {
      var m :| m in PreOrder(root) && visit(m) == [f];
      assert f in visit(m);
    }
  }
}
