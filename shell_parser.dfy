/**
 * `ShellASTParser`: parse with tree-sitter's Bash grammar, remembering the
 * encoded source, and walk the tree in pre-order for `eval`, pipes into a
 * shell and command substitutions.
 */
module ShellParser {
  import opened Wrappers
  import opened SyntaxTree
  import opened Foreign
  import opened SeqUtil

  /** Interpreters that a pipeline must not feed. */
  const ShellInterpreters: seq<string> := ["bash", "sh", "zsh"]

  /** The kinds the shell finder can report. */
  const ShellKinds: set<string> := {"eval", "pipe_to_shell", "command_substitution"}

  /** A `command` child of the pipeline has a `command_name` child naming a shell. */
  predicate PipesToShell(pipeline: Node, bytes: Bytes, decode: Bytes -> string) {
    exists i, j :: 0 <= i < |pipeline.children| && pipeline.children[i].kind == "command" &&
                   0 <= j < |pipeline.children[i].children| &&
                   pipeline.children[i].children[j].kind == "command_name" &&
                   Text(pipeline.children[i].children[j], bytes, decode) in ShellInterpreters
  }

  /** `_is_pipe_to_shell`: the nested loop, returning as soon as a shell command name is seen. */
  method IsPipeToShell(pipeline: Node, bytes: Bytes, decode: Bytes -> string) returns (found: bool)
    ensures found == PipesToShell(pipeline, bytes, decode)
  {
    var i := 0;
    while i < |pipeline.children|
      invariant 0 <= i <= |pipeline.children|
      invariant forall i', j :: 0 <= i' < i && pipeline.children[i'].kind == "command" &&
                                0 <= j < |pipeline.children[i'].children| &&
                                pipeline.children[i'].children[j].kind == "command_name" ==>
                                Text(pipeline.children[i'].children[j], bytes, decode) !in ShellInterpreters
    {
      var child := pipeline.children[i];
      if child.kind == "command" {
        var j := 0;
        while j < |child.children|
          invariant 0 <= j <= |child.children|
          invariant forall j' :: 0 <= j' < j && child.children[j'].kind == "command_name" ==>
                                 Text(child.children[j'], bytes, decode) !in ShellInterpreters
        {
          var sub := child.children[j];
          if sub.kind == "command_name" {
            var cmd := Text(sub, bytes, decode);
            if cmd in ShellInterpreters {
              return true;
            }
          }
          j := j + 1;
        }
      }
      i := i + 1;
    }
    return false;
  }

  /** What one node contributes; the three tests look at the node's type, so at most one applies. */
  function NodeFindings(node: Node, bytes: Bytes, decode: Bytes -> string): (r: seq<Finding>)
    ensures |r| <= 1
    ensures r != [] ==> r[0].node == node && r[0].line == Line(node) && r[0].kind in ShellKinds
    ensures r == [Finding(node, "eval", Line(node))] <==>
            node.kind == "command_name" && Text(node, bytes, decode) == "eval"
    ensures r == [Finding(node, "pipe_to_shell", Line(node))] <==>
            node.kind == "pipeline" && PipesToShell(node, bytes, decode)
    ensures r == [Finding(node, "command_substitution", Line(node))] <==> node.kind == "command_substitution"
  {
    (if node.kind == "command_name" && Text(node, bytes, decode) == "eval"
     then [Finding(node, "eval", Line(node))] else []) +
    (if node.kind == "pipeline" && PipesToShell(node, bytes, decode)
     then [Finding(node, "pipe_to_shell", Line(node))] else []) +
    (if node.kind == "command_substitution"
     then [Finding(node, "command_substitution", Line(node))] else [])
  }

  function Visitor(bytes: Bytes, decode: Bytes -> string): Node -> seq<Finding> {
    n => NodeFindings(n, bytes, decode)
  }

  /** The findings of a pre-order traversal from `root`. */
  function Findings(root: Node, bytes: Bytes, decode: Bytes -> string): seq<Finding> {
    Traversal(Visitor(bytes, decode), root)
  }

  /** The body of `traverse` before the recursion. */
  method VisitNode(node: Node, bytes: Bytes, decode: Bytes -> string) returns (own: seq<Finding>)
    ensures own == NodeFindings(node, bytes, decode)
  {
    own := [];
    if node.kind == "command_name" {
      var text := Text(node, bytes, decode);
      if text == "eval" {
        own := own + [Finding(node, "eval", Line(node))];
      }
    }
    if node.kind == "pipeline" {
      var pipes := IsPipeToShell(node, bytes, decode);
      if pipes {
        own := own + [Finding(node, "pipe_to_shell", Line(node))];
      }
    }
    if node.kind == "command_substitution" {
      own := own + [Finding(node, "command_substitution", Line(node))];
    }
  }

  /**
   * `traverse`: append the node's own finding, then traverse each child in
   * order. The shell parser has its own copy of the JavaScript parser's
   * traversal loop, and so does this module.
   */
  method Traverse(node: Node, bytes: Bytes, env: Env, patterns: seq<Finding>) returns (out: seq<Finding>)
    ensures out == patterns + Findings(node, bytes, env.decodeIgnore)
    decreases node
  {
    var decode := env.decodeIgnore;
    var own := VisitNode(node, bytes, decode);
    out := patterns + own;
    ghost var prefix := out;
    var visit := Visitor(bytes, decode);
    var i := 0;
    while i < |node.children|
      invariant 0 <= i <= |node.children|
      invariant out == prefix + TraversalAll(visit, node.children[..i])
    {
      TraversalAllSnoc(visit, node.children, i);
      ghost var before := TraversalAll(visit, node.children[..i]);
      out := Traverse(node.children[i], bytes, env, out);
      AppendAssociative(prefix, before, Traversal(visit, node.children[i]));
      i := i + 1;
    }
    assert node.children[..i] == node.children;
    assert Findings(node, bytes, decode) == own + TraversalAll(visit, node.children);
    AppendAssociative(patterns, own, TraversalAll(visit, node.children));
  }

  /**
   * A finding is reported exactly when some node of the tree contributes it;
   * never more findings than nodes. Stated again here, as for the JavaScript
   * parser, because the traversal is a separate copy.
   */
  lemma FindingsAreTheMatchingNodes(root: Node, bytes: Bytes, decode: Bytes -> string, f: Finding)
    ensures f in Findings(root, bytes, decode) <==>
            exists m :: m in PreOrder(root) && NodeFindings(m, bytes, decode) == [f]
    ensures |Findings(root, bytes, decode)| <= |PreOrder(root)|
  {
    TraversalFindsSingletons(Visitor(bytes, decode), root, f);
  }

  /** Every command substitution anywhere in the tree is reported at its own line. */
  lemma EveryCommandSubstitutionIsFound(root: Node, bytes: Bytes, decode: Bytes -> string, m: Node)
    requires m in PreOrder(root) && m.kind == "command_substitution"
    ensures Finding(m, "command_substitution", Line(m)) in Findings(root, bytes, decode)
  {
    FindingsAreTheMatchingNodes(root, bytes, decode, Finding(m, "command_substitution", Line(m)));
  }

  /** The parser object; `parse` remembers the encoded source for the finder. */
  class ShellASTParser {
    var lastCodeBytes: Option<Bytes>

    constructor ()
      ensures lastCodeBytes == None
    {
      lastCodeBytes := None;
    }

    /**
     * `parse`: store the UTF-8 encoding, then parse it; any exception gives
     * None (an encoding error before the store leaves the old bytes).
     */
    method Parse(code: string, env: Env) returns (tree: Option<Tree>)
      modifies this
      ensures lastCodeBytes == if env.encode(code).Some? then env.encode(code) else old(lastCodeBytes)
      ensures tree == if env.encode(code).Some? then env.bashParse(env.encode(code).value) else None
    {
      var encoded := env.encode(code);
      if encoded.None? {
        return None;
      }
      lastCodeBytes := encoded;
      tree := env.bashParse(encoded.value);
    }

    /** `find_dangerous_patterns`: the pre-order findings over the bytes the last parse stored. */
    method FindDangerousPatterns(tree: Tree, env: Env) returns (patterns: seq<Finding>)
      requires lastCodeBytes.Some?
      ensures patterns == Findings(tree.root, lastCodeBytes.value, env.decodeIgnore)
    {
      patterns := Traverse(tree.root, lastCodeBytes.value, env, []);
    }
  }
}
