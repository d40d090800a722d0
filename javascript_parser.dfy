/**
 * `JavaScriptASTParser`: parse with tree-sitter's JavaScript grammar,
 * remembering the encoded source, and walk the tree in pre-order for
 * eval, the Function constructor, string timers, child-process and vm calls.
 */
module JavaScriptParser {
  import opened Wrappers
  import opened SyntaxTree
  import opened Foreign
  import opened SeqUtil

  /** Method names reported as child-process calls, bare or as a member's property. */
  const ChildProcessMethods: seq<string> := ["exec", "execSync", "spawn", "spawnSync", "execFile", "execFileSync"]

  /** Member property names reported as vm calls. */
  const VmMethods: seq<string> := ["runInContext", "runInNewContext", "runInThisContext", "compileFunction"]

  /** Callees whose string argument is evaluated. */
  const TimerFunctions: seq<string> := ["setTimeout", "setInterval"]

  /** The kinds the JavaScript finder can report. */
  const JavaScriptKinds: set<string> := {"eval", "Function", "timer_string", "child_process", "vm", "new_Function"}

  /** The text of a member expression's `property` field, when the node is a member expression that has one. */
  function MemberProperty(funcNode: Node, bytes: Bytes, decode: Bytes -> string): Option<string> {
    if funcNode.kind != "member_expression" then None
    else match ChildByFieldName(funcNode, "property")
      case Some(prop) => Some(Text(prop, bytes, decode))
      case None => None
  }

  /** `_is_child_process_call`: a member access whose property is a child-process method, whatever the object. */
  predicate IsChildProcessCall(funcNode: Node, bytes: Bytes, decode: Bytes -> string) {
    var p := MemberProperty(funcNode, bytes, decode);
    p.Some? && p.value in ChildProcessMethods
  }

  /** `_is_vm_call`: a member access whose property is a vm execution method, whatever the object. */
  predicate IsVmCall(funcNode: Node, bytes: Bytes, decode: Bytes -> string) {
    var p := MemberProperty(funcNode, bytes, decode);
    p.Some? && p.value in VmMethods
  }

  /** The first child of type `arguments` that has at least one child. */
  function FirstNonEmptyArguments(ns: seq<Node>): (r: Option<Node>)
    ensures r.Some? ==> r.value in ns && r.value.kind == "arguments" && r.value.children != []
    ensures r.None? <==> forall i :: 0 <= i < |ns| ==> !(ns[i].kind == "arguments" && ns[i].children != [])
  {
    if ns == [] then None
    else if ns[0].kind == "arguments" && ns[0].children != [] then Some(ns[0])
    else FirstNonEmptyArguments(ns[1..])
  }

  /** The timer test: the first non-empty `arguments` child has a direct child of type `string`. */
  predicate HasStringArgument(call: Node) {
    var args := FirstNonEmptyArguments(call.children);
    args.Some? && exists i :: 0 <= i < |args.value.children| && args.value.children[i].kind == "string"
  }

  /** The text of a call expression's `function` field. */
  function CalleeText(node: Node, bytes: Bytes, decode: Bytes -> string): Option<string> {
    if node.kind != "call_expression" then None
    else match ChildByFieldName(node, "function")
      case Some(func) => Some(Text(func, bytes, decode))
      case None => None
  }

  /** The kind the `call_expression` branch reports, following its if/elif chain. */
  function CallKind(node: Node, bytes: Bytes, decode: Bytes -> string): (r: Option<string>)
    ensures r.Some? ==> CalleeText(node, bytes, decode).Some? && r.value in JavaScriptKinds
    ensures r == Some("eval") <==> CalleeText(node, bytes, decode) == Some("eval")
    ensures r == Some("Function") <==> CalleeText(node, bytes, decode) == Some("Function")
    ensures r == Some("timer_string") <==>
            (exists t :: t in TimerFunctions && CalleeText(node, bytes, decode) == Some(t)) && HasStringArgument(node)
    ensures (exists t :: t in ChildProcessMethods && CalleeText(node, bytes, decode) == Some(t)) ==>
            r == Some("child_process")
    ensures (var c := CalleeText(node, bytes, decode);
             c.Some? && c.value !in ["eval", "Function"] + TimerFunctions &&
             (c.value in ChildProcessMethods ||
              IsChildProcessCall(ChildByFieldName(node, "function").value, bytes, decode))) <==>
            r == Some("child_process")
    ensures (var c := CalleeText(node, bytes, decode);
             c.Some? && c.value !in ["eval", "Function"] + TimerFunctions + ChildProcessMethods &&
             !IsChildProcessCall(ChildByFieldName(node, "function").value, bytes, decode) &&
             IsVmCall(ChildByFieldName(node, "function").value, bytes, decode)) <==>
            r == Some("vm")
  {
    if node.kind != "call_expression" then None
    else match ChildByFieldName(node, "function")
      case None => None
      case Some(func) =>
        var text := Text(func, bytes, decode);
        if text == "eval" then Some("eval")
        else if text == "Function" then Some("Function")
        else if text in TimerFunctions then (if HasStringArgument(node) then Some("timer_string") else None)
        else if text in ChildProcessMethods then Some("child_process")
        else if IsChildProcessCall(func, bytes, decode) then Some("child_process")
        else if IsVmCall(func, bytes, decode) then Some("vm")
        else None
  }

  /** The kind the `new_expression` branch reports: `new Function(...)`. */
  function NewKind(node: Node, bytes: Bytes, decode: Bytes -> string): (r: Option<string>)
    ensures r.Some? <==> node.kind == "new_expression" && ChildByFieldName(node, "constructor").Some? &&
                         Text(ChildByFieldName(node, "constructor").value, bytes, decode) == "Function"
    ensures r.Some? ==> r.value == "new_Function"
  {
    if node.kind != "new_expression" then None
    else match ChildByFieldName(node, "constructor")
      case Some(ctor) => if Text(ctor, bytes, decode) == "Function" then Some("new_Function") else None
      case None => None
  }

  /** What one node contributes: at most one finding, since a node has one type. */
  function NodeFindings(node: Node, bytes: Bytes, decode: Bytes -> string): (r: seq<Finding>)
    ensures |r| <= 1
    ensures r != [] ==> r[0].node == node && r[0].line == Line(node) && r[0].kind in JavaScriptKinds
    ensures r != [] <==> CallKind(node, bytes, decode).Some? || NewKind(node, bytes, decode).Some?
  {
    var call := CallKind(node, bytes, decode);
    var ctor := NewKind(node, bytes, decode);
    (if call.Some? then [Finding(node, call.value, Line(node))] else []) +
    (if ctor.Some? then [Finding(node, ctor.value, Line(node))] else [])
  }

  function Visitor(bytes: Bytes, decode: Bytes -> string): Node -> seq<Finding> {
    n => NodeFindings(n, bytes, decode)
  }

  /** The findings of a pre-order traversal from `root`. */
  function Findings(root: Node, bytes: Bytes, decode: Bytes -> string): seq<Finding> {
    Traversal(Visitor(bytes, decode), root)
  }

  /**
   * The nested loop of the timer branch: look at the children for the first
   * `arguments` node that has children, and within it for a `string` child.
   */
  method TimerHasStringArgument(call: Node) returns (found: bool)
    ensures found == HasStringArgument(call)
  {
    found := false;
    var i := 0;
    while i < |call.children|
      invariant 0 <= i <= |call.children|
      invariant FirstNonEmptyArguments(call.children) == FirstNonEmptyArguments(call.children[i..])
      invariant !found
    {
      var child := call.children[i];
      assert call.children[i..][0] == child && call.children[i..][1..] == call.children[i + 1..];
      if child.kind == "arguments" && |child.children| > 0 {
        var j := 0;
        while j < |child.children|
          invariant 0 <= j <= |child.children|
          invariant forall k :: 0 <= k < j ==> child.children[k].kind != "string"
        {
          if child.children[j].kind == "string" {
            found := true;
            return;
          }
          j := j + 1;
        }
        return;
      }
      i := i + 1;
    }
  }

  /** The `call_expression` branch of `traverse`. */
  method CallBranch(node: Node, bytes: Bytes, decode: Bytes -> string) returns (kind: Option<string>)
    ensures kind == CallKind(node, bytes, decode)
  {
    kind := None;
    if node.kind == "call_expression" {
      var func := ChildByFieldName(node, "function");
      if func.Some? {
        var text := Text(func.value, bytes, decode);
        if text == "eval" {
          kind := Some("eval");
        } else if text == "Function" {
          kind := Some("Function");
        } else if text in TimerFunctions {
          var hasString := TimerHasStringArgument(node);
          if hasString {
            kind := Some("timer_string");
          }
        } else if text in ChildProcessMethods {
          kind := Some("child_process");
        } else if IsChildProcessCall(func.value, bytes, decode) {
          kind := Some("child_process");
        } else if IsVmCall(func.value, bytes, decode) {
          kind := Some("vm");
        }
      }
    }
  }

  /** The `new_expression` branch of `traverse`. */
  method NewBranch(node: Node, bytes: Bytes, decode: Bytes -> string) returns (kind: Option<string>)
    ensures kind == NewKind(node, bytes, decode)
  {
    kind := None;
    if node.kind == "new_expression" {
      var ctor := ChildByFieldName(node, "constructor");
      if ctor.Some? && Text(ctor.value, bytes, decode) == "Function" {
        kind := Some("new_Function");
      }
    }
  }

  /** The body of `traverse` before the recursion: what this node itself contributes. */
  method VisitNode(node: Node, bytes: Bytes, decode: Bytes -> string) returns (own: seq<Finding>)
    ensures own == NodeFindings(node, bytes, decode)
  {
    var kind := CallBranch(node, bytes, decode);
    var ctor := NewBranch(node, bytes, decode);
    own := [];
    if kind.Some? {
      own := own + [Finding(node, kind.value, Line(node))];
    }
    if ctor.Some? {
      own := own + [Finding(node, ctor.value, Line(node))];
    }
  }

  /** `traverse`: append the node's own finding, then traverse each child in order. */
  method Traverse(node: Node, bytes: Bytes, env: Env, patterns: seq<Finding>) returns (out: seq<Finding>)
    ensures out == patterns + Findings(node, bytes, env.decodeIgnore)
    decreases node
  {
    var decode := env.decodeIgnore;
    var own := VisitNode(node, bytes, decode);
    out := patterns + own;
    ghost var prefix := out;
    var visit := Visitor(bytes, decode);
    var i := 0;
    while i < |node.children|
      invariant 0 <= i <= |node.children|
      invariant out == prefix + TraversalAll(visit, node.children[..i])
    {
      TraversalAllSnoc(visit, node.children, i);
      ghost var before := TraversalAll(visit, node.children[..i]);
      out := Traverse(node.children[i], bytes, env, out);
      AppendAssociative(prefix, before, Traversal(visit, node.children[i]));
      i := i + 1;
    }
    assert node.children[..i] == node.children;
    assert Findings(node, bytes, decode) == own + TraversalAll(visit, node.children);
    AppendAssociative(patterns, own, TraversalAll(visit, node.children));
  }

  /** A finding is reported exactly when some node of the tree contributes it; never more findings than nodes. */
  lemma FindingsAreTheMatchingNodes(root: Node, bytes: Bytes, decode: Bytes -> string, f: Finding)
    ensures f in Findings(root, bytes, decode) <==>
            exists m :: m in PreOrder(root) && NodeFindings(m, bytes, decode) == [f]
    ensures |Findings(root, bytes, decode)| <= |PreOrder(root)|
  {
    TraversalFindsSingletons(Visitor(bytes, decode), root, f);
  }

  /** The parser object; `parse` remembers the encoded source for the finder. */
  class JavaScriptASTParser {
    var lastCodeBytes: Option<Bytes>

    constructor ()
      ensures lastCodeBytes == None
    {
      lastCodeBytes := None;
    }

    /**
     * `parse`: store the UTF-8 encoding, then parse it; any exception gives
     * None (an encoding error before the store leaves the old bytes).
     */
    method Parse(code: string, env: Env) returns (tree: Option<Tree>)
      modifies this
      ensures lastCodeBytes == if env.encode(code).Some? then env.encode(code) else old(lastCodeBytes)
      ensures tree == if env.encode(code).Some? then env.javascriptParse(env.encode(code).value) else None
    {
      var encoded := env.encode(code);
      if encoded.None? {
        return None;
      }
      lastCodeBytes := encoded;
      tree := env.javascriptParse(encoded.value);
    }

    /** `find_dangerous_patterns`: nothing before a successful encode, otherwise the pre-order findings over the stored bytes. */
    method FindDangerousPatterns(tree: Tree, env: Env) returns (patterns: seq<Finding>)
      ensures lastCodeBytes.None? ==> patterns == []
      ensures lastCodeBytes.Some? ==> patterns == Findings(tree.root, lastCodeBytes.value, env.decodeIgnore)
    {
      patterns := [];
      var codeBytes := lastCodeBytes;
      if codeBytes.None? {
        return;
      }
      patterns := Traverse(tree.root, codeBytes.value, env, patterns);
    }
  }
}
