/**
 * `ASTAnalyzer`: runs the syntax-tree rules registered for a script's
 * language and moves the reported line numbers by the script's offset
 * within its containing document.
 */
module AstAnalysis {
  import opened Wrappers
  import opened Types
  import opened Foreign
  import opened SeqUtil
  import PythonInjection
  import ShellInjection

  /** The syntax-tree rules an analyzer can hold. */
  datatype AstRule = PythonRule | ShellRule

  /**
   * The language-to-rules table: Python and shell scripts have one rule
   * each; JavaScript has no entry, so it is not analysed by syntax tree.
   */
  function LanguageRules(language: string): (r: seq<AstRule>)
    ensures r != [] <==> language == "python" || language == "shell"
    ensures language == "python" ==> r == [PythonRule]
    ensures language == "shell" ==> r == [ShellRule]
  {
    if language == "python" then [PythonRule]
    else if language == "shell" then [ShellRule]
    else []
  }

  /**
   * Moves one issue by `offset` lines. Only a truthy line number moves: an
   * absent line and line 0 are left as they are.
   */
  function ShiftLine(issue: SecurityIssue, offset: int): (r: SecurityIssue)
    ensures r.(lineNumber := issue.lineNumber) == issue
    ensures issue.lineNumber.None? ==> r.lineNumber.None?
    ensures issue.lineNumber == Some(0) ==> r == issue
    ensures issue.lineNumber.Some? && issue.lineNumber.value != 0 ==>
              r.lineNumber.Some? && r.lineNumber.value - issue.lineNumber.value == offset
  {
    match issue.lineNumber
    case Some(l) => if l != 0 then issue.(lineNumber := Some(l + offset)) else issue
    case None => issue
  }

  /** Every issue of `issues` moved by `offset`, in order. */
  function Shifted(issues: seq<SecurityIssue>, offset: int): (r: seq<SecurityIssue>)
    ensures |r| == |issues|
  {
    seq(|issues|, i requires 0 <= i < |issues| => ShiftLine(issues[i], offset))
  }

  /** An offset of 0 leaves every issue as the rule reported it. */
  lemma ShiftByZero(issues: seq<SecurityIssue>)
    ensures Shifted(issues, 0) == issues
  {
    forall i | 0 <= i < |issues|
      ensures Shifted(issues, 0)[i] == issues[i]
    {
      var issue := issues[i];
      assert Shifted(issues, 0)[i] == ShiftLine(issue, 0);
      if issue.lineNumber.Some? && issue.lineNumber.value != 0 {
        assert ShiftLine(issue, 0).lineNumber == issue.lineNumber;
      }
    }
  }

  /** Shifting keeps the count, the order and every field but the line number. */
  lemma ShiftKeepsOrder(issues: seq<SecurityIssue>, offset: int, i: nat)
    requires i < |issues|
    ensures Shifted(issues, offset)[i].(lineNumber := issues[i].lineNumber) == issues[i]
    ensures issues[i].lineNumber.None? ==> Shifted(issues, offset)[i].lineNumber.None?
    ensures issues[i].lineNumber.Some? && issues[i].lineNumber.value != 0 ==>
              Shifted(issues, offset)[i].lineNumber == Some(issues[i].lineNumber.value + offset)
  {
    assert Shifted(issues, offset)[i] == ShiftLine(issues[i], offset);
  }

  /** Shifting distributes over concatenation. */
  lemma ShiftConcat(a: seq<SecurityIssue>, b: seq<SecurityIssue>, offset: int)
    ensures Shifted(a + b, offset) == Shifted(a, offset) + Shifted(b, offset)
  {
    var l := Shifted(a + b, offset);
    var r := Shifted(a, offset) + Shifted(b, offset);
    forall i | 0 <= i < |l|
      ensures l[i] == r[i]
    {
      if i < |a| {
        assert (a + b)[i] == a[i];
      } else {
        assert (a + b)[i] == b[i - |a|];
      }
    }
  }

  /** The in-place loop of `analyze` that adds the offset to every truthy line number. */
  method ShiftLineNumbers(issues: seq<SecurityIssue>, offset: int) returns (out: seq<SecurityIssue>)
    ensures out == Shifted(issues, offset)
  {
    out := issues;
    for k := 0 to |issues|
      invariant |out| == |issues|
      invariant forall i :: 0 <= i < k ==> out[i] == ShiftLine(issues[i], offset)
      invariant forall i :: k <= i < |issues| ==> out[i] == issues[i]
    {
      var issue := out[k];
      if issue.lineNumber.Some? && issue.lineNumber.value != 0 {
        out := out[k := issue.(lineNumber := Some(issue.lineNumber.value + offset))];
      }
    }
  }

  /** What one rule's `check` returns on a script's content. */
  function RuleResult(rule: AstRule, content: string, env: Env): Result<seq<SecurityIssue>> {
    match rule
    case PythonRule => PythonInjection.CheckResult(content, env)
    case ShellRule => Ok(ShellInjection.CheckResult(content, env))
  }

  /**
   * The rules applied in turn, each rule's issues shifted and appended;
   * an exception from a rule propagates and ends the analysis.
   */
  function RunRules(rules: seq<AstRule>, content: string, offset: int, env: Env): (r: Result<seq<SecurityIssue>>)
    ensures r.Ok? <==> forall k :: 0 <= k < |rules| ==> RuleResult(rules[k], content, env).Ok?
  {
    if rules == [] then Ok([])
    else
      match RuleResult(rules[0], content, env)
      case Raised(e) => Raised(e)
      case Ok(issues) =>
        match RunRules(rules[1..], content, offset, env)
        case Raised(e) => Raised(e)
        case Ok(rest) => Ok(Shifted(issues, offset) + rest)
  }

  /** `issues` put in front of a result's issues; an exception stays as it is. */
  function Prepend(issues: seq<SecurityIssue>, r: Result<seq<SecurityIssue>>): Result<seq<SecurityIssue>> {
    match r
    case Raised(e) => Raised(e)
    case Ok(rest) => Ok(issues + rest)
  }

  lemma PrependNothing(r: Result<seq<SecurityIssue>>)
    ensures Prepend([], r) == r
  {
    if r.Ok? {
      assert [] + r.value == r.value;
    }
  }

  /** A single rule: its issues shifted, or its exception. */
  lemma RunOneRule(rule: AstRule, content: string, offset: int, env: Env)
    ensures RuleResult(rule, content, env).Raised? ==> RunRules([rule], content, offset, env) == RuleResult(rule, content, env)
    ensures RuleResult(rule, content, env).Ok? ==>
              RunRules([rule], content, offset, env) == Ok(Shifted(RuleResult(rule, content, env).value, offset))
  {
    assert [rule][1..] == [];
    var c := RuleResult(rule, content, env);
    if c.Ok? {
      assert Shifted(c.value, offset) + [] == Shifted(c.value, offset);
    }
  }

  /** What `analyze` returns for a script. */
  function AnalyzeResult(script: Script, env: Env): (r: Result<seq<SecurityIssue>>)
    ensures script.language != "python" && script.language != "shell" ==> r == Ok([])
    ensures script.language == "shell" ==>
              r == Ok(Shifted(ShellInjection.CheckResult(script.content, env), script.lineOffset))
    ensures script.language == "python" ==>
              (r.Raised? <==> PythonInjection.CheckResult(script.content, env).Raised?) &&
              (r.Ok? ==> r.value == Shifted(PythonInjection.CheckResult(script.content, env).value, script.lineOffset))
  {
    var rules := LanguageRules(script.language);
    if rules != [] then
      RunOneRule(rules[0], script.content, script.lineOffset, env);
      RunRules(rules, script.content, script.lineOffset, env)
    else
      RunRules(rules, script.content, script.lineOffset, env)
  }

  /**
   * With offset 0 the analysis returns exactly what the language's rule
   * reported, in the same order.
   */
  lemma ZeroOffsetKeepsRuleOutput(script: Script, env: Env)
    requires script.lineOffset == 0
    ensures script.language == "shell" ==>
              AnalyzeResult(script, env) == Ok(ShellInjection.CheckResult(script.content, env))
    ensures script.language == "python" ==>
              AnalyzeResult(script, env) == PythonInjection.CheckResult(script.content, env)
  {
    if script.language == "shell" {
      ShiftByZero(ShellInjection.CheckResult(script.content, env));
    } else if script.language == "python" {
      var c := PythonInjection.CheckResult(script.content, env);
      if c.Ok? {
        ShiftByZero(c.value);
      }
    }
  }

  /** The analyzer; it owns one shell rule (with its parser) for its whole life. */
  class ASTAnalyzer {
    const shellRule: ShellInjection.ShellInjectionRule

    constructor ()
      ensures fresh(shellRule) && fresh(shellRule.parser)
    {
      shellRule := new ShellInjection.ShellInjectionRule();
    }

    /** The analyzer's name. */
    function Name(): string {
      "ASTAnalyzer"
    }

    /**
     * `analyze`: run the language's rules and shift their line numbers.
     * The result depends on the script alone, so analysing a script twice
     * gives equal results.
     */
    method Analyze(script: Script, env: Env) returns (r: Result<seq<SecurityIssue>>)
      modifies shellRule.parser
      ensures r == AnalyzeResult(script, env)
    {
      var rules := LanguageRules(script.language);
      var issues: seq<SecurityIssue> := [];
      assert rules[0..] == rules;
      PrependNothing(RunRules(rules, script.content, script.lineOffset, env));
      for k := 0 to |rules|
        invariant RunRules(rules, script.content, script.lineOffset, env) ==
                  Prepend(issues, RunRules(rules[k..], script.content, script.lineOffset, env))
      {
        var ruleIssues: seq<SecurityIssue>;
        assert rules[k..][0] == rules[k] && rules[k..][1..] == rules[k + 1..];
        if rules[k] == PythonRule {
          var c := PythonInjection.Check(script.content, env);
          if c.Raised? {
            return c;
          }
          ruleIssues := c.value;
        } else {
          ruleIssues := shellRule.Check(script.content, env);
        }
        var shifted := ShiftLineNumbers(ruleIssues, script.lineOffset);
        var tail := RunRules(rules[k + 1..], script.content, script.lineOffset, env);
        if tail.Ok? {
          AppendAssociative(issues, shifted, tail.value);
        }
        issues := issues + shifted;
      }
      assert rules[|rules|..] == [];
      assert issues + [] == issues;
      r := Ok(issues);
    }
  }
}
