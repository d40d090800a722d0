/** `SensitiveDataRule`: secret environment variables, `.env` files, SSH keys and credential files, in any letter case. */
module SensitiveData {
  import opened Wrappers
  import opened Types
  import opened Spans
  import opened Foreign
  import opened RegexRules

  const SensitiveDataRule: Rule := Rule(
    "SENSITIVE_DATA", "敏感信息泄露风险", "避免在脚本中直接访问敏感信息，使用安全的密钥管理方案",
    [ Entry(Literal(@"\$AWS_SECRET_ACCESS_KEY", "$AWS_SECRET_ACCESS_KEY"), "访问 AWS 密钥", CRITICAL),
      Entry(Literal(@"\$AWS_ACCESS_KEY_ID", "$AWS_ACCESS_KEY_ID"), "访问 AWS 访问密钥", HIGH),
      Entry(Literal(@"\$GITHUB_TOKEN", "$GITHUB_TOKEN"), "访问 GitHub Token", HIGH),
      Entry(Literal(@"\$OPENAI_API_KEY", "$OPENAI_API_KEY"), "访问 OpenAI API Key", HIGH),
      Entry(Literal(@"\$ANTHROPIC_API_KEY", "$ANTHROPIC_API_KEY"), "访问 Anthropic API Key", HIGH),
      Entry(Literal(@"\$DATABASE_URL", "$DATABASE_URL"), "访问数据库连接字符串", HIGH),
      Entry(Literal(@"\$PRIVATE_KEY", "$PRIVATE_KEY"), "访问私钥", CRITICAL),
      Entry(Literal(@"\$PASSWORD", "$PASSWORD"), "访问密码", HIGH),
      Entry(Literal(@"\$SECRET", "$SECRET"), "访问密钥", HIGH),
      Entry(Regex(@"\.env\b"), "访问环境变量文件", MEDIUM),
      Entry(Literal(@"id_rsa", "id_rsa"), "访问 SSH 私钥", CRITICAL),
      Entry(Literal(@"credentials\.json", "credentials.json"), "访问凭证文件", HIGH) ],
    true)

  /** The table has no LOW entry. */
  lemma TableHasNoLow()
    ensures forall k :: 0 <= k < |SensitiveDataRule.table| ==> SensitiveDataRule.table[k].severity != LOW
  {
  }

  /** No sensitive-data issue has severity LOW. */
  lemma NeverLow(text: string, env: Env)
    ensures forall issue :: issue in Issues(SensitiveDataRule, text, env) ==> issue.severity != LOW
  {
    TableHasNoLow();
    SeveritiesAvoid(SensitiveDataRule, text, env, LOW);
  }


  /**
   * The match ignores case: wherever `$GITHUB_TOKEN` occurs in any spelling
   * (so also in `echo $github_token`), a HIGH issue is reported whose
   * snippet is that spelling, taken from the script.
   */
  lemma GitHubTokenIsReported(text: string, env: Env, pos: nat)
    requires OccursAt(text, "$GITHUB_TOKEN", pos, true)
    ensures exists issue, start: nat :: issue in Issues(SensitiveDataRule, text, env) &&
              start <= pos < start + 13 <= |text| && OccursAt(text, "$GITHUB_TOKEN", start, true) &&
              issue.severity == HIGH && issue.codeSnippet == Some(text[start..start + 13])
  {
    var e := SensitiveDataRule.table[2];
    assert e == Entry(Literal(@"\$GITHUB_TOKEN", "$GITHUB_TOKEN"), "访问 GitHub Token", HIGH);
    LiteralIssueIsReported(SensitiveDataRule, text, env, 2, pos);
  }

  /**
   * `$GITHUB_TOKEN` occurs, ignoring case, in `echo $github_token` at
   * position 5, spelt `$github_token` there, and nowhere before.
   */
  lemma LowerCaseTokenOccurrence()
    ensures OccursAt("echo $github_token", "$GITHUB_TOKEN", 5, true)
    ensures "echo $github_token"[5..18] == "$github_token"
    ensures forall q: nat :: q < 5 ==> !OccursAt("echo $github_token", "$GITHUB_TOKEN", q, true)
  {
    var text := "echo $github_token";
    var lit := "$GITHUB_TOKEN";
    assert text[5..18] == "$github_token";
    forall j | 0 <= j < |lit|
      ensures SameChar(text[5 + j], lit[j], true)
    {
      assert text[5..] == "$github_token";
    }
    forall q: nat | q < 5
      ensures !OccursAt(text, lit, q, true)
    {
      assert !SameChar(text[q], lit[0], true);
    }
  }

  /**
   * The first occurrence of `$GITHUB_TOKEN`, in any case, is reported as a
   * HIGH `SENSITIVE_DATA` issue whose snippet is that occurrence.
   */
  lemma FirstGitHubTokenIsReported(text: string, env: Env, pos: nat)
    requires OccursAt(text, "$GITHUB_TOKEN", pos, true)
    requires forall q: nat :: q < pos ==> !OccursAt(text, "$GITHUB_TOKEN", q, true)
    ensures pos + 13 <= |text|
    ensures exists issue :: issue in Issues(SensitiveDataRule, text, env) &&
              issue.ruleId == "SENSITIVE_DATA" && issue.severity == HIGH &&
              issue.codeSnippet == Some(text[pos..pos + 13])
  {
    var e := SensitiveDataRule.table[2];
    assert e == Entry(Literal(@"\$GITHUB_TOKEN", "$GITHUB_TOKEN"), "访问 GitHub Token", HIGH);
    FirstLiteralIsReported(SensitiveDataRule, text, env, 2, pos);
    var issue := MatchIssue(SensitiveDataRule, e, text, Span(pos, pos + 13));
    assert issue.ruleId == "SENSITIVE_DATA" && issue.severity == HIGH;
  }

  /**
   * `echo $github_token` is reported: there is a HIGH `SENSITIVE_DATA`
   * issue whose snippet is `$github_token`, spelt as in the script.
   */
  lemma LowerCaseTokenIsReported(env: Env)
    ensures exists issue :: issue in Issues(SensitiveDataRule, "echo $github_token", env) &&
              issue.ruleId == "SENSITIVE_DATA" && issue.severity == HIGH &&
              issue.codeSnippet == Some("$github_token")
  {
    var text := "echo $github_token";
    LowerCaseTokenOccurrence();
    FirstGitHubTokenIsReported(text, env, 5);
  }
}
