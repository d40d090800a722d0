/**
 * `PythonInjectionRule`: parse a Python script, run the finder, and turn
 * each finding into a `PY_AST_*` issue.
 */
module PythonInjection {
  import opened Wrappers
  import opened Types
  import opened PythonAst
  import opened PythonParser
  import opened Foreign
  import opened SeqUtil

  /**
   * The issue the if/elif chain of `check` builds for a finding of `kind`
   * at `line` with `snippet`; None for a kind the chain does not name.
   */
  function IssueFor(kind: string, line: int, snippet: string): (r: Option<SecurityIssue>)
    ensures r.Some? <==> kind in PythonKinds
    ensures r.Some? ==> r.value.lineNumber == Some(line) && r.value.codeSnippet == Some(snippet)
    ensures r.Some? ==> r.value.recommendation.Some?
    ensures kind == "eval" ==> r.value.ruleId == "PY_AST_EVAL" && r.value.severity == CRITICAL
    ensures kind == "exec" ==> r.value.ruleId == "PY_AST_EXEC" && r.value.severity == CRITICAL
    ensures kind == "compile" ==> r.value.ruleId == "PY_AST_COMPILE" && r.value.severity == HIGH
    ensures kind == "os.system" ==> r.value.ruleId == "PY_AST_OS_SYSTEM" && r.value.severity == HIGH
    ensures kind == "subprocess" ==> r.value.ruleId == "PY_AST_SUBPROCESS" && r.value.severity == HIGH
  {
    if kind == "eval" then
      Some(SecurityIssue("PY_AST_EVAL", "使用 eval() 执行代码",
        "eval() 可以执行任意 Python 代码，存在严重安全风险", CRITICAL,
        Some(line), Some(snippet), Some("避免使用 eval()，使用 ast.literal_eval() 或其他安全方法")))
    else if kind == "exec" then
      Some(SecurityIssue("PY_AST_EXEC", "使用 exec() 执行代码",
        "exec() 可以执行任意 Python 代码，存在严重安全风险", CRITICAL,
        Some(line), Some(snippet), Some("避免使用 exec()，重新设计代码逻辑")))
    else if kind == "compile" then
      Some(SecurityIssue("PY_AST_COMPILE", "使用 compile() 编译代码",
        "compile() 可以编译任意 Python 代码，可能存在安全风险", HIGH,
        Some(line), Some(snippet), Some("谨慎使用 compile()，确保输入来源可信")))
    else if kind == "os.system" then
      Some(SecurityIssue("PY_AST_OS_SYSTEM", "使用 os.system() 执行命令",
        "os.system() 容易受到命令注入攻击", HIGH,
        Some(line), Some(snippet), Some("使用 subprocess.run() 并避免 shell=True")))
    else if kind == "subprocess" then
      Some(SecurityIssue("PY_AST_SUBPROCESS", "使用 subprocess 执行命令",
        "subprocess 调用可能存在命令注入风险，特别是使用 shell=True 时", HIGH,
        Some(line), Some(snippet), Some("避免使用 shell=True，使用列表形式传递参数")))
    else None
  }

  /** The snippet of a finding: its source segment, or `<kind>(...)` when there is none; never truncated. */
  function Snippet(script: string, env: Env, f: PyFinding): (s: string)
    ensures env.sourceSegment(script, f.node).Some? ==> s == env.sourceSegment(script, f.node).value
    ensures env.sourceSegment(script, f.node).None? ==> s == f.kind + "(...)"
  {
    match env.sourceSegment(script, f.node)
    case Some(segment) => segment
    case None => f.kind + "(...)"
  }

  /** An issue table: the issue for a kind, line and snippet, if the kind is known. */
  type Table = (string, int, string) -> Option<SecurityIssue>

  /** What one finding adds to the issue list. */
  function FindingIssues(table: Table, script: string, env: Env, f: PyFinding): seq<SecurityIssue> {
    match table(f.kind, f.line, Snippet(script, env, f))
    case Some(issue) => [issue]
    case None => []
  }

  function IssueMapper(table: Table, script: string, env: Env): PyFinding -> seq<SecurityIssue> {
    f => FindingIssues(table, script, env, f)
  }

  /** The issues for a list of findings, in finding order. */
  function IssuesFor(table: Table, script: string, env: Env, findings: seq<PyFinding>): seq<SecurityIssue> {
    FlatMap(IssueMapper(table, script, env), findings)
  }

  /** What `check` returns: a SyntaxError gives no issues, another parse error propagates. */
  function CheckResult(script: string, env: Env): (r: Result<seq<SecurityIssue>>)
    ensures env.pythonParse(script).SyntaxErrorRaised? ==> r == Ok([])
    ensures r.Raised? <==> env.pythonParse(script).OtherErrorRaised?
  {
    match Parse(script, env)
    case Raised(e) => Raised(e)
    case Ok(None) => Ok([])
    case Ok(Some(tree)) => Ok(IssuesFor(IssueFor, script, env, Findings(tree)))
  }

  /** `check`: parse, find, and append one issue per recognised finding. */
  method Check(script: string, env: Env) returns (r: Result<seq<SecurityIssue>>)
    ensures r == CheckResult(script, env)
  {
    var tree := Parse(script, env);
    if tree.Raised? {
      return Raised(tree.exception);
    }
    if tree.value.None? {
      return Ok([]);
    }
    var patterns := FindDangerousPatterns(tree.value.value);
    var issues := ReportFindings(IssueFor, script, env, patterns);
    r := Ok(issues);
  }

  /** The loop of `check`: one issue per finding the if/elif chain names, in finding order. */
  method ReportFindings(table: Table, script: string, env: Env, patterns: seq<PyFinding>) returns (issues: seq<SecurityIssue>)
    ensures issues == IssuesFor(table, script, env, patterns)
  {
    issues := [];
    var i := 0;
    while i < |patterns|
      invariant 0 <= i <= |patterns|
      invariant issues == IssuesFor(table, script, env, patterns[..i])
    {
      var f := patterns[i];
      var snippet := Snippet(script, env, f);
      var issue := table(f.kind, f.line, snippet);
      if issue.Some? {
        issues := issues + [issue.value];
      }
      FlatMapSnoc(IssueMapper(table, script, env), patterns, i);
      i := i + 1;
    }
    assert patterns[..i] == patterns;
  }

  /**
   * When the table knows every finding's kind, each finding yields exactly
   * one issue, the table's issue for it, at the same position.
   */
  lemma OneIssuePerFinding(table: Table, script: string, env: Env, findings: seq<PyFinding>)
    requires forall f :: f in findings ==> table(f.kind, f.line, Snippet(script, env, f)).Some?
    ensures |IssuesFor(table, script, env, findings)| == |findings|
    ensures forall i :: 0 <= i < |findings| ==>
              IssuesFor(table, script, env, findings)[i]
                == table(findings[i].kind, findings[i].line, Snippet(script, env, findings[i])).value
  {
    var m := IssueMapper(table, script, env);
    forall f | f in findings
      ensures m(f) == [table(f.kind, f.line, Snippet(script, env, f)).value]
    {
    }
    FlatMapSingletons(m, findings);
    forall i | 0 <= i < |findings|
      ensures IssuesFor(table, script, env, findings)[i]
                == table(findings[i].kind, findings[i].line, Snippet(script, env, findings[i])).value
    {
      assert findings[i] in findings;
    }
  }

  /** A finding whose kind the rule does not name adds nothing. */
  lemma UnknownKindsAreDropped(script: string, env: Env, before: seq<PyFinding>, f: PyFinding, after: seq<PyFinding>)
    requires f.kind !in PythonKinds
    ensures IssuesFor(IssueFor, script, env, before + [f] + after) == IssuesFor(IssueFor, script, env, before + after)
  {
    var m := IssueMapper(IssueFor, script, env);
    assert FindingIssues(IssueFor, script, env, f) == [];
    assert FlatMap(m, [f]) == [] by {
      assert FlatMap(m, [f]) == m(f) + FlatMap(m, []);
    }
    FlatMapConcat(m, before + [f], after);
    FlatMapConcat(m, before, [f]);
    assert FlatMap(m, before + [f]) == FlatMap(m, before);
    FlatMapConcat(m, before, after);
  }

  /**
   * On a script that parses, `check` reports one issue per Call the finder
   * matches, in `ast.walk` order, each on its Call's line.
   */
  lemma CheckReportsEveryFinding(script: string, env: Env)
    requires env.pythonParse(script).ParsedModule?
    ensures CheckResult(script, env).Ok?
    ensures var tree := env.pythonParse(script).tree;
            var issues := CheckResult(script, env).value;
            |issues| == |Findings(tree)| &&
            forall i :: 0 <= i < |issues| ==>
              issues[i].lineNumber == Some(Findings(tree)[i].line) &&
              issues[i].lineNumber == Some(Findings(tree)[i].node.lineno)
  {
    var tree := env.pythonParse(script).tree;
    forall f | f in Findings(tree)
      ensures f.kind in PythonKinds && f.line == f.node.lineno
    {
      FindingsComeFromCalls(tree, f);
    }
    OneIssuePerFinding(IssueFor, script, env, Findings(tree));
  }
}
