/**
 * `ShellInjectionRule`: parse a shell script with its own parser object, run
 * the finder, and turn each finding into an `SH_AST_*` issue.
 */
module ShellInjection {
  import opened Wrappers
  import opened Types
  import opened SyntaxTree
  import opened Foreign
  import opened TreeRule
  import opened ShellParser

  /** The if/elif chain of `check`: the issue for `kind`, or None for a kind it does not name. */
  function CreateIssue(kind: string, line: int, snippet: string): (r: Option<SecurityIssue>)
    ensures r.Some? <==> kind in ShellKinds
    ensures r.Some? ==> r.value.lineNumber == Some(line) && r.value.codeSnippet == Some(snippet)
    ensures r.Some? ==> r.value.recommendation.Some?
    ensures kind == "eval" ==> r.value.ruleId == "SH_AST_EVAL" && r.value.severity == CRITICAL
    ensures kind == "pipe_to_shell" ==> r.value.ruleId == "SH_AST_PIPE_TO_SHELL" && r.value.severity == HIGH
    ensures kind == "command_substitution" ==> r.value.ruleId == "SH_AST_CMD_SUBST" && r.value.severity == MEDIUM
  {
    if kind == "eval" then
      Some(SecurityIssue("SH_AST_EVAL", "使用 eval 执行命令",
        "eval 可以执行任意 Shell 命令，存在严重安全风险", CRITICAL,
        Some(line), Some(snippet), Some("避免使用 eval，直接调用命令或使用数组")))
    else if kind == "pipe_to_shell" then
      Some(SecurityIssue("SH_AST_PIPE_TO_SHELL", "管道到 shell 执行",
        "将数据管道到 bash/sh 可能执行恶意代码", HIGH,
        Some(line), Some(snippet), Some("避免管道到 shell，先保存到文件并验证内容")))
    else if kind == "command_substitution" then
      Some(SecurityIssue("SH_AST_CMD_SUBST", "命令替换",
        "命令替换可能导致命令注入，需确保输入可信", MEDIUM,
        Some(line), Some(snippet), Some("谨慎使用命令替换，验证输入来源")))
    else None
  }

  /** What `check` returns: no issues when encoding or parsing fails, otherwise one per finding the chain names. */
  function CheckResult(script: string, env: Env): (r: seq<SecurityIssue>)
    ensures env.encode(script).None? ==> r == []
    ensures env.encode(script).Some? && env.bashParse(env.encode(script).value).None? ==> r == []
  {
    match env.encode(script)
    case None => []
    case Some(bytes) =>
      match env.bashParse(bytes)
      case None => []
      case Some(tree) => IssuesFor(CreateIssue, bytes, env, Findings(tree.root, bytes, env.decodeIgnore))
  }

  /** The rule object; it owns one parser, whose stored bytes `check` overwrites. */
  class ShellInjectionRule {
    const parser: ShellASTParser

    constructor ()
      ensures fresh(parser) && parser.lastCodeBytes == None
    {
      parser := new ShellASTParser();
    }

    /** `check`: parse, find, and append one issue per finding the chain names. */
    method Check(script: string, env: Env) returns (issues: seq<SecurityIssue>)
      modifies parser
      ensures issues == CheckResult(script, env)
      ensures parser.lastCodeBytes == if env.encode(script).Some? then env.encode(script) else old(parser.lastCodeBytes)
    {
      var tree := parser.Parse(script, env);
      if tree.None? {
        return [];
      }
      var patterns := parser.FindDangerousPatterns(tree.value, env);
      var codeBytes := env.encode(script);
      issues := ReportFindings(CreateIssue, codeBytes.value, env, patterns);
    }
  }

  /**
   * The result depends on the script alone, and on a script that encodes and
   * parses there is one issue per finding, in pre-order, each on its node's
   * line (`start_point.row + 1`).
   */
  lemma CheckReportsEveryFinding(script: string, env: Env)
    requires env.encode(script).Some? && env.bashParse(env.encode(script).value).Some?
    ensures var bytes := env.encode(script).value;
            var findings := Findings(env.bashParse(bytes).value.root, bytes, env.decodeIgnore);
            var issues := CheckResult(script, env);
            |issues| == |findings| &&
            forall i :: 0 <= i < |issues| ==>
              Some(issues[i]) == CreateIssue(findings[i].kind, findings[i].line, Snippet(bytes, env, findings[i])) &&
              issues[i].lineNumber == Some(Line(findings[i].node))
  {
    var bytes := env.encode(script).value;
    var root := env.bashParse(bytes).value.root;
    var findings := Findings(root, bytes, env.decodeIgnore);
    assert CheckResult(script, env) == IssuesFor(CreateIssue, bytes, env, findings);
    forall f | f in findings
      ensures CreateIssue(f.kind, f.line, Snippet(bytes, env, f)).Some? && f.line == Line(f.node)
    {
      FindingsAreTheMatchingNodes(root, bytes, env.decodeIgnore, f);
    }
    OneIssuePerFinding(CreateIssue, bytes, env, findings);
  }

  /** Every command substitution in a script that parses is reported as a MEDIUM `SH_AST_CMD_SUBST` issue on its line. */
  lemma EveryCommandSubstitutionIsReported(script: string, env: Env, m: Node)
    requires env.encode(script).Some? && env.bashParse(env.encode(script).value).Some?
    requires m in PreOrder(env.bashParse(env.encode(script).value).value.root) && m.kind == "command_substitution"
    ensures exists issue :: issue in CheckResult(script, env) && issue.ruleId == "SH_AST_CMD_SUBST" &&
                            issue.severity == MEDIUM && issue.lineNumber == Some(Line(m))
  {
    var bytes := env.encode(script).value;
    var root := env.bashParse(bytes).value.root;
    var findings := Findings(root, bytes, env.decodeIgnore);
    var f := Finding(m, "command_substitution", Line(m));
    EveryCommandSubstitutionIsFound(root, bytes, env.decodeIgnore, m);
    var k :| 0 <= k < |findings| && findings[k] == f;
    CheckReportsEveryFinding(script, env);
    var issues := CheckResult(script, env);
    assert issues[k] in issues;
  }
}
