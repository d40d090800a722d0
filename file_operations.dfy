/** `FileOperationRule`: deleting or opening up system and home directories, writing system paths, reaching key stores. */
module FileOperations {
  import opened Types
  import opened Foreign
  import opened RegexRules

  const FileOperationRule: Rule := Rule(
    "FILE_OPERATION", "危险的文件操作", "避免操作系统关键目录和敏感文件",
    [ Entry(Regex(@"\brm\s+-rf\s+/"), "删除根目录文件", CRITICAL),
      Entry(Regex(@"\brm\s+-rf\s+~"), "删除用户目录", CRITICAL),
      Entry(Regex(@"\brm\s+-rf\s+\$HOME"), "删除 HOME 目录", CRITICAL),
      Entry(Regex(@"\bchmod\s+777"), "设置过于宽松的权限", HIGH),
      Entry(Regex(@"\bchown\s+.*\s+/"), "修改根目录所有权", HIGH),
      Entry(Regex(@">\s*/etc/"), "写入系统配置目录", HIGH),
      Entry(Regex(@">\s*/usr/"), "写入系统目录", HIGH),
      Entry(Regex(@">\s*/var/"), "写入系统变量目录", MEDIUM),
      Entry(Regex(@"\b\.ssh/"), "访问 SSH 密钥目录", HIGH),
      Entry(Regex(@"\b\.aws/"), "访问 AWS 凭证目录", HIGH) ],
    false)

  /** The table has no LOW entry. */
  lemma TableHasNoLow()
    ensures forall k :: 0 <= k < |FileOperationRule.table| ==> FileOperationRule.table[k].severity != LOW
  {
  }

  /** No file-operation issue has severity LOW. */
  lemma NeverLow(text: string, env: Env)
    ensures forall issue :: issue in Issues(FileOperationRule, text, env) ==> issue.severity != LOW
  {
    TableHasNoLow();
    SeveritiesAvoid(FileOperationRule, text, env, LOW);
  }

}
