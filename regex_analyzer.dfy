/**
 * `RegexAnalyzer`: runs the four regex rules, in a fixed order, over a
 * script's content. The language and the line offset of the script play no
 * part, so its line numbers are never shifted.
 */
module RegexAnalysis {
  import opened Types
  import opened Foreign
  import opened SeqUtil
  import opened RegexRules
  import CommandInjection
  import FileOperations
  import NetworkSecurity
  import SensitiveData

  /** The rule ids of the four rules, in the analyzer's order. */
  const RegexRuleIds: seq<string> := ["CMD_INJECTION", "FILE_OPERATION", "NETWORK_SECURITY", "SENSITIVE_DATA"]

  function RuleMapper(content: string, env: Env): Rule -> seq<SecurityIssue> {
    rule => Issues(rule, content, env)
  }

  /** The issues of `rules` on `content`: each rule's issues in turn. */
  function RulesIssues(rules: seq<Rule>, content: string, env: Env): seq<SecurityIssue> {
    FlatMap(RuleMapper(content, env), rules)
  }

  /** Every issue of a list of rules carries the id of one of those rules. */
  lemma RuleIdsOf(rules: seq<Rule>, content: string, env: Env, issue: SecurityIssue)
    requires issue in RulesIssues(rules, content, env)
    ensures exists k :: 0 <= k < |rules| && issue.ruleId == rules[k].ruleId &&
                        issue in Issues(rules[k], content, env)
  {
    FlatMapMembership(RuleMapper(content, env), rules, issue);
    var k :| 0 <= k < |rules| && issue in RuleMapper(content, env)(rules[k]);
    IssuesComeFromTable(rules[k], content, env, issue);
  }

  /** The analyzer; its rule list is fixed when it is built. */
  class RegexAnalyzer {
    const rules: seq<Rule>

    constructor ()
      ensures Valid()
    {
      rules := [CommandInjection.CommandInjectionRule, FileOperations.FileOperationRule,
                NetworkSecurity.NetworkSecurityRule, SensitiveData.SensitiveDataRule];
    }

    /** The rule list is the four rules in their fixed order. */
    predicate Valid() {
      rules == [CommandInjection.CommandInjectionRule, FileOperations.FileOperationRule,
                NetworkSecurity.NetworkSecurityRule, SensitiveData.SensitiveDataRule]
    }

    /** The analyzer's name. */
    function Name(): string {
      "RegexAnalyzer"
    }

    /** `analyze`: the issues of each rule on the script's content, in rule order. */
    method Analyze(script: Script, env: Env) returns (issues: seq<SecurityIssue>)
      requires Valid()
      ensures issues == AnalyzeResult(script, env)
    {
      issues := RunRules(rules, script.content, env);
    }
  }

  /** The loop of `analyze`: each rule's `check` on `content`, appended in turn. */
  method RunRules(rules: seq<Rule>, content: string, env: Env) returns (issues: seq<SecurityIssue>)
    ensures issues == RulesIssues(rules, content, env)
  {
    issues := [];
    for k := 0 to |rules|
      invariant issues == RulesIssues(rules[..k], content, env)
    {
      var ruleIssues := Check(rules[k], content, env);
      issues := issues + ruleIssues;
      FlatMapSnoc(RuleMapper(content, env), rules, k);
    }
    assert rules[..|rules|] == rules;
  }

  /** What `analyze` returns: the four rules' issues, in the order command, file, network, sensitive data. */
  function AnalyzeResult(script: Script, env: Env): seq<SecurityIssue> {
    RulesIssues([CommandInjection.CommandInjectionRule, FileOperations.FileOperationRule,
                 NetworkSecurity.NetworkSecurityRule, SensitiveData.SensitiveDataRule], script.content, env)
  }

  /** Four rules' issues are each rule's issues in turn. */
  lemma FourRulesIssues(a: Rule, b: Rule, c: Rule, d: Rule, content: string, env: Env)
    ensures RulesIssues([a, b, c, d], content, env) ==
            Issues(a, content, env) + Issues(b, content, env) + Issues(c, content, env) + Issues(d, content, env)
  {
    var f := RuleMapper(content, env);
    assert [a, b, c, d][1..] == [b, c, d] && [b, c, d][1..] == [c, d] && [c, d][1..] == [d] && [d][1..] == [];
    assert FlatMap(f, [d]) == f(d);
    assert FlatMap(f, [c, d]) == f(c) + f(d);
    assert FlatMap(f, [b, c, d]) == f(b) + (f(c) + f(d));
    AppendAssociative(f(a), f(b), f(c) + f(d));
    AppendAssociative(f(a) + f(b), f(c), f(d));
  }

  /** The analyzer's result is the concatenation of the four rules' results, in that order. */
  lemma AnalyzeIsConcatenation(script: Script, env: Env)
    ensures AnalyzeResult(script, env) ==
            Issues(CommandInjection.CommandInjectionRule, script.content, env) +
            Issues(FileOperations.FileOperationRule, script.content, env) +
            Issues(NetworkSecurity.NetworkSecurityRule, script.content, env) +
            Issues(SensitiveData.SensitiveDataRule, script.content, env)
  {
    FourRulesIssues(CommandInjection.CommandInjectionRule, FileOperations.FileOperationRule,
                    NetworkSecurity.NetworkSecurityRule, SensitiveData.SensitiveDataRule, script.content, env);
  }

  /** The ids of the four rules. */
  lemma TheFourRuleIds()
    ensures [CommandInjection.CommandInjectionRule.ruleId, FileOperations.FileOperationRule.ruleId,
             NetworkSecurity.NetworkSecurityRule.ruleId, SensitiveData.SensitiveDataRule.ruleId] == RegexRuleIds
  {
  }

  /** Every issue of four rules carries one of their ids. */
  lemma FourRuleIds(a: Rule, b: Rule, c: Rule, d: Rule, content: string, env: Env, issue: SecurityIssue)
    requires issue in RulesIssues([a, b, c, d], content, env)
    ensures issue.ruleId in [a.ruleId, b.ruleId, c.ruleId, d.ruleId]
  {
    RuleIdsOf([a, b, c, d], content, env, issue);
  }

  /** Every issue of the analyzer carries one of the four rule ids. */
  lemma RuleIdsAreTheFour(script: Script, env: Env, issue: SecurityIssue)
    requires issue in AnalyzeResult(script, env)
    ensures issue.ruleId in RegexRuleIds
  {
    FourRuleIds(CommandInjection.CommandInjectionRule, FileOperations.FileOperationRule,
                NetworkSecurity.NetworkSecurityRule, SensitiveData.SensitiveDataRule, script.content, env, issue);
    TheFourRuleIds();
  }
}
