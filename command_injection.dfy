/** `CommandInjectionRule`: dynamic evaluation, command substitution, pipes into a shell and forced deletion. */
module CommandInjection {
  import opened Types
  import opened Spans
  import opened Foreign
  import opened RegexRules

  const CommandInjectionRule: Rule := Rule(
    "CMD_INJECTION", "命令注入风险", "避免使用动态命令执行，使用参数化的方式调用命令",
    [ Entry(Regex(@"\beval\s*\("), "使用 eval() 执行代码", CRITICAL),
      Entry(Regex(@"\bexec\s*\("), "使用 exec() 执行代码", CRITICAL),
      Entry(Regex(@"\$\([^)]*\$"), "嵌套命令替换", HIGH),
      Entry(Regex(@"`[^`]*\$"), "命令替换中使用变量", HIGH),
      Entry(Regex(@"\|\s*sh\b"), "管道到 sh", HIGH),
      Entry(Regex(@"\|\s*bash\b"), "管道到 bash", HIGH),
      Entry(Regex(@";\s*rm\s+-rf"), "危险的删除命令", CRITICAL),
      Entry(Regex(@"&&\s*rm\s+-rf"), "危险的删除命令", CRITICAL) ],
    false)

  /** The table has no LOW or MEDIUM entry. */
  lemma TableIsHighOrCritical()
    ensures forall k :: 0 <= k < |CommandInjectionRule.table| ==> CommandInjectionRule.table[k].severity == HIGH || CommandInjectionRule.table[k].severity == CRITICAL
  {
  }

  /** Every command-injection issue has severity HIGH or CRITICAL. */
  lemma OnlyHighOrCritical(text: string, env: Env)
    ensures forall issue :: issue in Issues(CommandInjectionRule, text, env) ==> issue.severity == HIGH || issue.severity == CRITICAL
  {
    TableIsHighOrCritical();
    SeveritiesAvoid(CommandInjectionRule, text, env, LOW);
    SeveritiesAvoid(CommandInjectionRule, text, env, MEDIUM);
  }

}
