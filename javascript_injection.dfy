/**
 * `JavaScriptInjectionRule`: parse a JavaScript script with its own parser
 * object, run the finder, and turn each finding into a `JS_AST_*` issue.
 */
module JavaScriptInjection {
  import opened Wrappers
  import opened Types
  import opened SyntaxTree
  import opened Foreign
  import opened TreeRule
  import opened JavaScriptParser

  /** `_create_issue`: the table entry for `kind`, or None for a kind the table does not name. */
  function CreateIssue(kind: string, line: int, snippet: string): (r: Option<SecurityIssue>)
    ensures r.Some? <==> kind in JavaScriptKinds
    ensures r.Some? ==> r.value.lineNumber == Some(line) && r.value.codeSnippet == Some(snippet)
    ensures r.Some? ==> r.value.recommendation.Some?
    ensures kind == "eval" ==> r.value.ruleId == "JS_AST_EVAL" && r.value.severity == CRITICAL
    ensures kind == "Function" ==> r.value.ruleId == "JS_AST_FUNCTION" && r.value.severity == CRITICAL
    ensures kind == "new_Function" ==> r.value.ruleId == "JS_AST_NEW_FUNCTION" && r.value.severity == CRITICAL
    ensures kind == "timer_string" ==> r.value.ruleId == "JS_AST_TIMER_STRING" && r.value.severity == HIGH
    ensures kind == "child_process" ==> r.value.ruleId == "JS_AST_CHILD_PROCESS" && r.value.severity == HIGH
    ensures kind == "vm" ==> r.value.ruleId == "JS_AST_VM" && r.value.severity == HIGH
  {
    if kind == "eval" then
      Some(SecurityIssue("JS_AST_EVAL", "使用 eval() 执行代码",
        "eval() 可以执行任意 JavaScript 代码，存在严重安全风险", CRITICAL,
        Some(line), Some(snippet), Some("避免使用 eval()，使用 JSON.parse() 或其他安全方法")))
    else if kind == "Function" then
      Some(SecurityIssue("JS_AST_FUNCTION", "使用 Function 构造器",
        "Function 构造器可以动态创建函数，存在代码注入风险", CRITICAL,
        Some(line), Some(snippet), Some("避免使用 Function 构造器")))
    else if kind == "new_Function" then
      Some(SecurityIssue("JS_AST_NEW_FUNCTION", "使用 new Function() 创建函数",
        "new Function() 可以动态创建函数，存在代码注入风险", CRITICAL,
        Some(line), Some(snippet), Some("避免使用 new Function()")))
    else if kind == "timer_string" then
      Some(SecurityIssue("JS_AST_TIMER_STRING", "setTimeout/setInterval 使用字符串参数",
        "传递字符串给 setTimeout/setInterval 会执行 eval", HIGH,
        Some(line), Some(snippet), Some("使用函数引用代替字符串")))
    else if kind == "child_process" then
      Some(SecurityIssue("JS_AST_CHILD_PROCESS", "使用 child_process 执行命令",
        "child_process 可能导致命令注入", HIGH,
        Some(line), Some(snippet), Some("验证输入，避免拼接用户输入到命令")))
    else if kind == "vm" then
      Some(SecurityIssue("JS_AST_VM", "使用 vm 模块执行代码",
        "vm 模块可以执行任意代码", HIGH,
        Some(line), Some(snippet), Some("谨慎使用 vm 模块，确保输入可信")))
    else None
  }

  /** What `check` returns: no issues when encoding or parsing fails, otherwise one per finding the table names. */
  function CheckResult(script: string, env: Env): (r: seq<SecurityIssue>)
    ensures env.encode(script).None? ==> r == []
    ensures env.encode(script).Some? && env.javascriptParse(env.encode(script).value).None? ==> r == []
  {
    match env.encode(script)
    case None => []
    case Some(bytes) =>
      match env.javascriptParse(bytes)
      case None => []
      case Some(tree) => IssuesFor(CreateIssue, bytes, env, Findings(tree.root, bytes, env.decodeIgnore))
  }

  /** The rule object; it owns one parser, whose stored bytes `check` overwrites. */
  class JavaScriptInjectionRule {
    const parser: JavaScriptASTParser

    constructor ()
      ensures fresh(parser) && parser.lastCodeBytes == None
    {
      parser := new JavaScriptASTParser();
    }

    /** `check`: parse, find, and append one issue per finding the table names. */
    method Check(script: string, env: Env) returns (issues: seq<SecurityIssue>)
      modifies parser
      ensures issues == CheckResult(script, env)
      ensures parser.lastCodeBytes == if env.encode(script).Some? then env.encode(script) else old(parser.lastCodeBytes)
    {
      var tree := parser.Parse(script, env);
      if tree.None? {
        return [];
      }
      var patterns := parser.FindDangerousPatterns(tree.value, env);
      var codeBytes := env.encode(script);
      issues := ReportFindings(CreateIssue, codeBytes.value, env, patterns);
    }
  }

  /**
   * The result depends on the script alone, and on a script that encodes and
   * parses there is one issue per finding, in pre-order, each on its node's
   * line (`start_point.row + 1`) with the severity its rule id carries.
   */
  lemma CheckReportsEveryFinding(script: string, env: Env)
    requires env.encode(script).Some? && env.javascriptParse(env.encode(script).value).Some?
    ensures var bytes := env.encode(script).value;
            var findings := Findings(env.javascriptParse(bytes).value.root, bytes, env.decodeIgnore);
            var issues := CheckResult(script, env);
            |issues| == |findings| &&
            forall i :: 0 <= i < |issues| ==>
              Some(issues[i]) == CreateIssue(findings[i].kind, findings[i].line, Snippet(bytes, env, findings[i])) &&
              issues[i].lineNumber == Some(Line(findings[i].node))
  {
    var bytes := env.encode(script).value;
    var root := env.javascriptParse(bytes).value.root;
    var findings := Findings(root, bytes, env.decodeIgnore);
    assert CheckResult(script, env) == IssuesFor(CreateIssue, bytes, env, findings);
    forall f | f in findings
      ensures CreateIssue(f.kind, f.line, Snippet(bytes, env, f)).Some? && f.line == Line(f.node)
    {
      FindingsAreTheMatchingNodes(root, bytes, env.decodeIgnore, f);
    }
    OneIssuePerFinding(CreateIssue, bytes, env, findings);
  }
}
