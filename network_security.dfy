/** `NetworkSecurityRule`: download-and-execute, plain HTTP, data exfiltration, reverse shells and raw TCP. */
module NetworkSecurity {
  import opened Wrappers
  import opened Types
  import opened Spans
  import opened Foreign
  import opened RegexRules

  const NetworkSecurityRule: Rule := Rule(
    "NETWORK_SECURITY", "网络安全风险", "避免从不可信来源下载和执行代码，使用 HTTPS",
    [ Entry(Regex(@"\bcurl\s+.*\|\s*sh"), "从网络下载并执行脚本", CRITICAL),
      Entry(Regex(@"\bwget\s+.*\|\s*sh"), "从网络下载并执行脚本", CRITICAL),
      Entry(Regex(@"\bcurl\s+.*\|\s*bash"), "从网络下载并执行脚本", CRITICAL),
      Entry(Regex(@"\bwget\s+.*\|\s*bash"), "从网络下载并执行脚本", CRITICAL),
      Entry(Regex(@"http://[^\s]+"), "使用不安全的 HTTP 协议", MEDIUM),
      Entry(Regex(@"\bcurl\s+.*-X\s+POST.*\$"), "可能的数据外泄", HIGH),
      Entry(Regex(@"\bwget\s+.*--post-data.*\$"), "可能的数据外泄", HIGH),
      Entry(Regex(@"\bnc\s+.*-e"), "使用 netcat 反向 shell", CRITICAL),
      Entry(Literal(@"/dev/tcp/", "/dev/tcp/"), "使用 TCP 连接", HIGH) ],
    false)

  /** The table has no LOW entry. */
  lemma TableHasNoLow()
    ensures forall k :: 0 <= k < |NetworkSecurityRule.table| ==> NetworkSecurityRule.table[k].severity != LOW
  {
  }

  /** No network issue has severity LOW. */
  lemma NeverLow(text: string, env: Env)
    ensures forall issue :: issue in Issues(NetworkSecurityRule, text, env) ==> issue.severity != LOW
  {
    TableHasNoLow();
    SeveritiesAvoid(NetworkSecurityRule, text, env, LOW);
  }


  /** Any `/dev/tcp/` in a script is reported as a HIGH issue whose snippet is exactly `/dev/tcp/`. */
  lemma DevTcpIsReported(text: string, env: Env, pos: nat)
    requires OccursAt(text, "/dev/tcp/", pos, false)
    ensures exists issue :: issue in Issues(NetworkSecurityRule, text, env) &&
              issue.severity == HIGH && issue.codeSnippet == Some("/dev/tcp/")
  {
    ExactLiteralIsReported(NetworkSecurityRule, text, env, 8, pos);
  }
}
