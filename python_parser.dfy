/**
 * `PythonASTParser`: parse with the `ast` module and walk the tree for
 * calls to eval/exec/compile, `.system(...)` and subprocess-style methods.
 */
module PythonParser {
  import opened Wrappers
  import opened PythonAst
  import opened Foreign
  import opened SeqUtil

  /** A raw finding: the Call node, the pattern kind, and the node's `lineno`. */
  datatype PyFinding = PyFinding(node: PyNode, kind: string, line: int)

  /** The kinds the Python finder can report. */
  const PythonKinds: set<string> := {"eval", "exec", "compile", "os.system", "subprocess"}

  /** Attribute names reported as subprocess calls, whatever the receiver. */
  const SubprocessMethods: seq<string> := ["Popen", "call", "run", "check_output"]

  /** `parse`: a SyntaxError becomes None; any other exception propagates. */
  function Parse(code: string, env: Env): (r: Result<Option<PyNode>>)
    ensures r == Ok(None) <==> env.pythonParse(code).SyntaxErrorRaised?
    ensures r.Ok? && r.value.Some? <==> env.pythonParse(code).ParsedModule?
    ensures r.Ok? && r.value.Some? ==> r.value.value == env.pythonParse(code).tree
    ensures r.Raised? <==> env.pythonParse(code).OtherErrorRaised?
    ensures r.Raised? ==> r.exception == env.pythonParse(code).exception
  {
    match env.pythonParse(code)
    case ParsedModule(tree) => Ok(Some(tree))
    case SyntaxErrorRaised => Ok(None)
    case OtherErrorRaised(e) => Raised(e)
  }

  /** The callee of a Call node: its `func` field, which is its first child. */
  function Callee(n: PyNode): Option<PyNode> {
    if n.kind.Call? && n.children != [] then Some(n.children[0]) else None
  }

  /** The callee is the bare name `id`. */
  predicate CallsName(n: PyNode, id: string) {
    Callee(n).Some? && Callee(n).value.kind == Name(id)
  }

  /** The callee is an attribute access `<anything>.attr`. */
  predicate CallsAttribute(n: PyNode, attr: string) {
    Callee(n).Some? && Callee(n).value.kind == Attribute(attr)
  }

  /** What one walked node contributes to the findings: at most one finding, only for a Call. */
  function CallFinding(n: PyNode): (r: seq<PyFinding>)
    ensures |r| <= 1
    ensures r != [] ==> n.kind.Call? && r[0].node == n && r[0].line == n.lineno && r[0].kind in PythonKinds
    ensures (r != [] && r[0].kind == "eval") <==> CallsName(n, "eval")
    ensures (r != [] && r[0].kind == "exec") <==> CallsName(n, "exec")
    ensures (r != [] && r[0].kind == "compile") <==> CallsName(n, "compile")
    ensures (r != [] && r[0].kind == "os.system") <==> CallsAttribute(n, "system")
    ensures (r != [] && r[0].kind == "subprocess") <==>
            exists m :: m in SubprocessMethods && CallsAttribute(n, m)
  {
    match Callee(n)
    case None => []
    case Some(func) =>
      match func.kind
      case Name(id) =>
        if id == "eval" then [PyFinding(n, "eval", n.lineno)]
        else if id == "exec" then [PyFinding(n, "exec", n.lineno)]
        else if id == "compile" then [PyFinding(n, "compile", n.lineno)]
        else []
      case Attribute(attr) =>
        if attr == "system" then [PyFinding(n, "os.system", n.lineno)]
        else if attr in SubprocessMethods then [PyFinding(n, "subprocess", n.lineno)]
        else []
      case _ => []
  }

  /** The findings for a tree: each node's contribution, in `ast.walk` order. */
  function Findings(tree: PyNode): seq<PyFinding> {
    FlatMap(CallFinding, Walk(tree))
  }

  /**
   * `find_dangerous_patterns`: the breadth-first worklist of `ast.walk`,
   * appending the finding of each Call node as it is popped.
   */
  method FindDangerousPatterns(tree: PyNode) returns (patterns: seq<PyFinding>)
    ensures patterns == Findings(tree)
  {
    patterns := [];
    var todo := [tree];
    while todo != []
      invariant patterns + FlatMap(CallFinding, Bfs(todo)) == Findings(tree)
      decreases SizeAll(todo)
    {
      var node := todo[0];
      PopShrinks(todo);
      ghost var before := todo;
      todo := todo[1..] + node.children;
      assert Bfs(before) == [node] + Bfs(todo);
      assert FlatMap(CallFinding, Bfs(before)) == CallFinding(node) + FlatMap(CallFinding, Bfs(todo)) by {
        assert ([node] + Bfs(todo))[0] == node;
        assert ([node] + Bfs(todo))[1..] == Bfs(todo);
      }
      patterns := patterns + CallFinding(node);
    }
  }

  /** Every finding comes from a matching Call node of the tree. */
  lemma FindingsComeFromCalls(tree: PyNode, f: PyFinding)
    requires f in Findings(tree)
    ensures exists n :: n in PreOrder(tree) && CallFinding(n) == [f]
  {
    var walk := Walk(tree);
    WalkVisitsEachNodeOnce(tree);
    FlatMapSingletonSource(CallFinding, walk, f);
    var i :| 0 <= i < |walk| && CallFinding(walk[i]) == [f];
    assert walk[i] in multiset(walk);
  }

  /** Every matching Call node of the tree is reported, and there are never more findings than nodes. */
  lemma EveryCallIsFound(tree: PyNode, n: PyNode)
    requires n in PreOrder(tree)
    ensures forall f :: f in CallFinding(n) ==> f in Findings(tree)
    ensures |Findings(tree)| <= Size(tree)
  {
    WalkVisitsEachNodeOnce(tree);
    assert n in multiset(PreOrder(tree));
    var i :| 0 <= i < |Walk(tree)| && Walk(tree)[i] == n;
    forall f | f in CallFinding(n)
      ensures f in Findings(tree)
    {
      FlatMapMembership(CallFinding, Walk(tree), f);
    }
    FlatMapAtMostOne(CallFinding, Walk(tree));
  }

  /** Findings come out in walk order: the root's own finding first, then those of its direct children, then deeper ones. */
  lemma FindingsFollowWalkOrder(tree: PyNode)
    ensures |Walk(tree)| >= 1 + |tree.children|
    ensures Findings(tree) == CallFinding(tree) + FlatMap(CallFinding, tree.children)
                              + FlatMap(CallFinding, Walk(tree)[1 + |tree.children|..])
  {
    WalkStartsWithRootThenChildren(tree);
    var w := Walk(tree);
    var k := 1 + |tree.children|;
    assert w == ([tree] + tree.children) + w[k..];
    FlatMapConcat(CallFinding, [tree] + tree.children, w[k..]);
    FlatMapConcat(CallFinding, [tree], tree.children);
    assert FlatMap(CallFinding, [tree]) == CallFinding(tree) + FlatMap(CallFinding, []);
  }
}
