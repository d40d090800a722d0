# TrustSkill detection engine in Dafny

TrustSkill inspects agent-skill bundles. A bundle is a `SKILL.md` document with fenced code blocks plus a `scripts/` directory. TrustSkill reports code that evaluates strings, spawns processes, pipes downloads into a shell, deletes system directories or reads secrets. This project models its detection engine:

- **Shared types.** `Script`, `SecurityIssue`, `Severity`, `AnalysisMode` and `ScanResult` with its counts.
- **Regex rules.** The four table-driven rules: command injection, file operations, network security and sensitive data. Each table entry is checked in order. Every `re.finditer` match of an entry becomes one issue, which carries the 1-based line of the match start.
- **Syntax-tree finders.**
  - The Python finder walks `ast.walk` breadth first.
  - The JavaScript and shell finders walk tree-sitter trees in pre-order.
  - Each finder has an injection rule that maps raw findings to `PY_AST_*`, `JS_AST_*` or `SH_AST_*` issues, with snippet extraction and truncation.
- **Analyzers.**
  - `RegexAnalyzer` runs the four rules in order.
  - `ASTAnalyzer` picks the rules for a script's language and shifts line numbers by the script's offset.
- **Scanner.** `SkillScanner` picks analyzers by mode and collects issues script by script and, within a script, analyzer by analyzer.
- **Parser bookkeeping.** `SkillParser` records fenced blocks and script files and turns them into `Script`s.

Foreign code is a parameter, the record `Foreign.Env`. It covers:

- CPython's `ast.parse` and `ast.get_source_segment`;
- tree-sitter's JavaScript and Bash parsers;
- UTF-8 encoding and decoding;
- the `re` engine, for table entries that are real regular expressions.

The `re` engine is constrained to return in-bounds, left-to-right, non-overlapping matches. Table entries that are plain literals are searched concretely. That covers most of the sensitive-data table, with Python's IGNORECASE folding, and `/dev/tcp/`. Their completeness is therefore proved, not assumed.

Exceptions that escape a call are modelled with `Result`. The Python rule catches only `SyntaxError`; any other exception from `ast.parse` escapes `check`, `analyze` and `scan`. The JavaScript and shell rules decode snippets strictly and fall back to `<kind>(...)` when decoding fails. Nothing stamps a source or analyzer id on issues, because the issue type has no such fields.

Every script handed to the scanner has line offset 0 and is labelled `markdown`, the directory files included (`SkillParsing.EveryScriptIsMarkdown`). This happens because both extractors record offset 0.

## Model

| member | source | states |
|---|---|---|
| Types.NewScript | src/types.py:22-28 | A script built without an offset keeps its content, language and source and has line offset 0. |
| Types.NewIssue | src/types.py:31-40 | An issue built from the four required fields has no line number, snippet or recommendation. |
| Types.CountSeverity | src/types.py:54-62 | The count of a severity is at most the number of issues, and it is zero exactly when no issue has that severity. |
| Types.CountIsMultiplicity | src/types.py:54-62 | The count of a severity equals its multiplicity in the multiset of the issues' severities. |
| Types.CountConcat | src/types.py:54-62 | The count over a concatenation is the sum of the counts over the parts. |
| Types.CountsPartition | src/types.py:7-12 | Each issue has exactly one of the four severities, so the four counts sum to the number of issues. |
| Types.ScanResult.IsSafe | src/types.py:49-52 | A result is safe exactly when every severity has count zero, i.e. when no issue was found. |
| Types.ScanResult.CriticalCount | src/types.py:54-57 | The critical count is at most the number of issues, and it is zero exactly when no issue is CRITICAL. |
| Types.ScanResult.HighCount | src/types.py:59-62 | The high count is at most the number of issues, and it is zero exactly when no issue is HIGH. |
| Types.CriticalAndHighBounded | src/types.py:49-62 | Critical plus high never exceeds the number of issues. They are equal exactly when every issue is CRITICAL or HIGH. |
| Types.CountsOfConcatenation | src/types.py:49-62 | The critical and high counts of a result over two issue lists are the sums of their counts, and the result is safe iff both parts are. |
| Spans.LineAt | src/rules/regex/command_injection.py:31 | The line of a match start lies between 1 and 1 plus the number of newlines in the script. |
| Spans.LineAtMonotone | src/rules/regex/command_injection.py:31 | A later position never has an earlier line, and the position right after a newline is on the next line. |
| Spans.FoldCase | src/rules/regex/sensitive_data.py:31 | Upper-case ASCII letters fold to lower case, and the dotted and dotless capital/small I fold to `i`, as IGNORECASE matching does against an ASCII pattern. |
| Spans.LiteralSpans | src/rules/regex/sensitive_data.py:30-32 | Reference definition of the matches of a literal pattern, scanning left to right and resuming after each match. Every span it gives is an occurrence of the literal at or after the start position; `LiteralSpansSound` and `LiteralSpansComplete` state the rest. |
| Spans.LiteralSpansSound | src/rules/regex/sensitive_data.py:30-32 | The matches of a literal pattern are in bounds, run left to right without overlapping, and are each an occurrence of the literal. |
| Spans.LiteralSpansComplete | src/rules/regex/sensitive_data.py:30-32 | Every occurrence of a literal lies inside some reported match, so the search misses nothing except occurrences overlapping an earlier match. |
| RegexRules.SpansOf | src/rules/regex/command_injection.py:28 | The matches of any table pattern are ranges of the script. |
| RegexRules.SpansOfSound | src/rules/regex/command_injection.py:28 | The matches of any pattern are well formed, and those of a literal are exactly occurrences of it. |
| RegexRules.MatchIssue | src/rules/regex/command_injection.py:31-40 | Reference definition of the issue built for one match: the rule's id, title and recommendation, the entry's description and severity, the matched text as snippet and its line. `ReportMatches` and the reporting lemmas are stated with it. |
| RegexRules.Issues | src/rules/regex/command_injection.py:27-41 | Reference definition of a rule's issues: each table entry's matches in turn, in table order. `Check`, `IssuesComeFromTable`, `MatchIsReported` and the severity lemmas are stated against it. |
| RegexRules.ReportMatches | src/rules/regex/command_injection.py:29-41 | The inner loop yields one issue per match, in match order. Each issue has the rule's id, title and recommendation, the entry's description joined to the matched text, the entry's severity, the matched text as snippet and the match's line. |
| RegexRules.Check | src/rules/regex/command_injection.py:23-43 | The outer loop yields the issues of each table entry in turn, in table order. |
| RegexRules.IssuesComeFromTable | src/rules/regex/command_injection.py:27-41 | Every issue of a rule comes from one table entry and one match. Its severity is that entry's, and its line lies within the script. |
| RegexRules.MatchIsReported | src/rules/regex/command_injection.py:29-41 | Every match of every entry is reported as that entry's issue, so nothing is dropped or de-duplicated. |
| RegexRules.LiteralOccurrenceIsReported | src/rules/regex/sensitive_data.py:30-43 | Every occurrence of a literal entry lies inside a match that is reported as an issue. |
| RegexRules.LiteralIssueIsReported | src/rules/regex/sensitive_data.py:30-43 | For every occurrence of a literal entry, some issue carries that entry's severity and has the occurrence's own spelling as its snippet. |
| RegexRules.FirstLiteralIsReported | src/rules/regex/sensitive_data.py:30-43 | An occurrence of a literal entry with no occurrence before it is itself a match, and its issue, with that occurrence as snippet, is reported. |
| RegexRules.ExactLiteralIsReported | src/rules/regex/network_security.py:27-40 | Without IGNORECASE, an occurrence of a literal entry yields an issue whose snippet is the literal and whose description is the entry's text, `: `, then the literal. |
| RegexRules.SeveritiesWithin | src/rules/regex/command_injection.py:27-41 | Every issue's severity is one the table lists. |
| RegexRules.SeveritiesAvoid | src/rules/regex/command_injection.py:27-41 | A severity no table entry has is carried by no issue. |
| CommandInjection.TableIsHighOrCritical | src/rules/regex/command_injection.py:12-21 | Every entry of the command-injection table is HIGH or CRITICAL. |
| CommandInjection.OnlyHighOrCritical | src/rules/regex/command_injection.py:12-41 | On any script, every command-injection issue is HIGH or CRITICAL. |
| FileOperations.TableHasNoLow | src/rules/regex/file_operations.py:11-22 | No entry of the file-operation table is LOW. |
| FileOperations.NeverLow | src/rules/regex/file_operations.py:11-43 | On any script, no file-operation issue is LOW. |
| NetworkSecurity.TableHasNoLow | src/rules/regex/network_security.py:11-21 | No entry of the network table is LOW. |
| NetworkSecurity.NeverLow | src/rules/regex/network_security.py:11-42 | On any script, no network issue is LOW. |
| NetworkSecurity.DevTcpIsReported | src/rules/regex/network_security.py:20-40 | Any `/dev/tcp/` in a script yields a HIGH issue whose snippet is `/dev/tcp/`. |
| SensitiveData.TableHasNoLow | src/rules/regex/sensitive_data.py:11-24 | No entry of the sensitive-data table is LOW. |
| SensitiveData.NeverLow | src/rules/regex/sensitive_data.py:11-45 | On any script, no sensitive-data issue is LOW. |
| SensitiveData.LowerCaseTokenOccurrence | src/rules/regex/sensitive_data.py:31 | `$GITHUB_TOKEN` occurs, ignoring case, in `echo $github_token` at position 5, spelt `$github_token` there, and at no earlier position. |
| SensitiveData.GitHubTokenIsReported | src/rules/regex/sensitive_data.py:14-43 | Any spelling of `$GITHUB_TOKEN`, in any letter case, yields a HIGH issue whose snippet is that spelling. |
| SensitiveData.FirstGitHubTokenIsReported | src/rules/regex/sensitive_data.py:14-43 | The first occurrence of `$GITHUB_TOKEN`, in any letter case, yields a HIGH `SENSITIVE_DATA` issue whose snippet is exactly that occurrence. |
| SensitiveData.LowerCaseTokenIsReported | src/rules/regex/sensitive_data.py:31 | Scanning `echo $github_token` reports a HIGH `SENSITIVE_DATA` issue whose snippet is `$github_token`. |
| RegexAnalysis.RuleIdsOf | src/analyzers/regex_analyzer.py:24-31 | Every issue of a list of rules comes from one of them and carries its id. |
| RegexAnalysis.RegexAnalyzer.constructor | src/analyzers/regex_analyzer.py:16-22 | The analyzer holds the command, file, network and sensitive-data rules, in that order. |
| RegexAnalysis.RegexAnalyzer.Analyze | src/analyzers/regex_analyzer.py:24-31 | `analyze` returns the rules' issues on the script's content. Its language and offset are not used. |
| RegexAnalysis.RunRules | src/analyzers/regex_analyzer.py:26-30 | The loop returns each rule's issues in turn. |
| RegexAnalysis.FourRulesIssues | src/analyzers/regex_analyzer.py:26-30 | Four rules' issues are the concatenation of each rule's issues. |
| RegexAnalysis.AnalyzeIsConcatenation | src/analyzers/regex_analyzer.py:17-31 | The result is the command-injection issues, then file-operation, network, then sensitive-data, so regex line numbers are never shifted. |
| RegexAnalysis.RuleIdsAreTheFour | src/analyzers/regex_analyzer.py:17-31 | Every issue's rule id is one of `CMD_INJECTION`, `FILE_OPERATION`, `NETWORK_SECURITY` and `SENSITIVE_DATA`. |
| AstAnalysis.LanguageRules | src/analyzers/ast_analyzer.py:13-30 | Only `python` and `shell` have rules, one each. Any other language, JavaScript included, has none. |
| AstAnalysis.ShiftLine | src/analyzers/ast_analyzer.py:39-41 | Only a truthy line number moves, and it moves by exactly the offset. A missing line and line 0 stay as they are, and every other field is kept. |
| AstAnalysis.ShiftByZero | src/analyzers/ast_analyzer.py:39-41 | Offset 0 leaves every issue unchanged. |
| AstAnalysis.ShiftKeepsOrder | src/analyzers/ast_analyzer.py:39-42 | Shifting keeps count, order and every field but the line, which moves by the offset when truthy. |
| AstAnalysis.ShiftConcat | src/analyzers/ast_analyzer.py:36-42 | Shifting distributes over concatenation. |
| AstAnalysis.ShiftLineNumbers | src/analyzers/ast_analyzer.py:39-41 | The in-place loop leaves each issue shifted by the offset, in place. |
| AstAnalysis.RuleResult | src/analyzers/ast_analyzer.py:37 | Reference definition of one rule's `check` on the script's content, an exception included. `RunRules` and `RunOneRule` are stated with it. |
| AstAnalysis.RunRules | src/analyzers/ast_analyzer.py:36-42 | Reference definition of the rules loop. It completes iff every rule's `check` completes; `RunOneRule`, `AnalyzeResult` and `ASTAnalyzer.Analyze` are stated against it. |
| AstAnalysis.RunOneRule | src/analyzers/ast_analyzer.py:36-42 | One rule gives its issues shifted by the offset, or it propagates its exception. |
| AstAnalysis.AnalyzeResult | src/analyzers/ast_analyzer.py:19-44 | Unsupported languages give no issues. Shell gives the shell rule's issues, shifted. Python raises exactly when the Python rule raises, and otherwise gives its issues, shifted. |
| AstAnalysis.ZeroOffsetKeepsRuleOutput | src/analyzers/ast_analyzer.py:36-44 | At offset 0 the analyzer returns exactly its rule's output. |
| AstAnalysis.ASTAnalyzer.constructor | src/analyzers/ast_analyzer.py:11-17 | The analyzer owns a fresh shell rule with a fresh parser. |
| AstAnalysis.ASTAnalyzer.Analyze | src/analyzers/ast_analyzer.py:19-44 | `analyze` returns a result that depends on the script alone, even though the shell parser's stored bytes change. Analysing a script twice therefore gives equal results. |
| PythonAst.Bfs | src/ast_parsers/python_parser.py:35 | Reference definition of the `ast.walk` worklist. It yields as many nodes as the queued trees hold; the `Bfs…` lemmas state order and coverage. |
| PythonAst.Walk | src/ast_parsers/python_parser.py:35 | Reference definition of `ast.walk(tree)`. It yields one node per node of the tree, the tree first; `WalkVisitsEachNodeOnce` and `WalkStartsWithRootThenChildren` state the rest. |
| PythonAst.BfsKeepsQueueOrder | src/ast_parsers/python_parser.py:35 | The `ast.walk` worklist is first in, first out: whatever is queued is yielded first, in order. |
| PythonAst.BfsVisitsEachNodeOnce | src/ast_parsers/python_parser.py:35 | The worklist yields exactly the nodes of the queued trees, as a multiset. |
| PythonAst.WalkVisitsEachNodeOnce | src/ast_parsers/python_parser.py:35 | `ast.walk` visits every node of the tree exactly once. |
| PythonAst.WalkStartsWithRootThenChildren | src/ast_parsers/python_parser.py:35 | `ast.walk` yields the root, then its children in order, before anything deeper. |
| PythonParser.Parse | src/ast_parsers/python_parser.py:19-22 | A SyntaxError gives None. A parsed module gives its tree. Any other exception propagates unchanged. |
| PythonParser.Callee | src/ast_parsers/python_parser.py:37-38 | Reference definition of a Call node's `func`. `CallFinding` is stated with it. |
| PythonParser.CallFinding | src/ast_parsers/python_parser.py:37-51 | A node gives at most one finding, only for a Call, at its `lineno`. Each kind is reported iff the callee matches: the bare names `eval`, `exec`, `compile`; the attribute `system`; or one of the subprocess attributes. |
| PythonParser.Findings | src/ast_parsers/python_parser.py:33-53 | Reference definition of the findings of a tree: each node's finding in `ast.walk` order. `FindDangerousPatterns`, `FindingsComeFromCalls`, `EveryCallIsFound` and `FindingsFollowWalkOrder` are stated against it. |
| PythonParser.FindDangerousPatterns | src/ast_parsers/python_parser.py:24-53 | The worklist loop returns the findings of the nodes in `ast.walk` order. |
| PythonParser.FindingsComeFromCalls | src/ast_parsers/python_parser.py:33-53 | Every finding is the single finding of some node of the tree. |
| PythonParser.EveryCallIsFound | src/ast_parsers/python_parser.py:35-51 | Every matching Call anywhere in the tree is reported, and there are never more findings than nodes. |
| PythonParser.FindingsFollowWalkOrder | src/ast_parsers/python_parser.py:35-53 | The root's finding comes first, then those of its direct children, then deeper ones. |
| PythonInjection.IssueFor | src/rules/ast/python_injection.py:41-90 | Exactly the five known kinds give an issue, carrying the finding's line and snippet. Each kind maps to its `PY_AST_*` id and severity: eval and exec CRITICAL, the rest HIGH. |
| PythonInjection.Snippet | src/rules/ast/python_injection.py:34-39 | The snippet is the source segment, or `<kind>(...)` when there is none. It is never truncated. |
| PythonInjection.CheckResult | src/rules/ast/python_injection.py:24-30 | A SyntaxError gives no issues. `check` raises exactly when the parser raises something else. |
| PythonInjection.Check | src/rules/ast/python_injection.py:15-92 | `check` parses, finds and reports, returning that result. |
| PythonInjection.ReportFindings | src/rules/ast/python_injection.py:32-90 | The loop appends the issue for each finding whose kind the chain names, in finding order. |
| PythonInjection.OneIssuePerFinding | src/rules/ast/python_injection.py:32-90 | When every kind is known, each finding gives exactly one issue, at the same position. |
| PythonInjection.UnknownKindsAreDropped | src/rules/ast/python_injection.py:41-90 | A finding of an unknown kind adds nothing, wherever it stands. |
| PythonInjection.CheckReportsEveryFinding | src/rules/ast/python_injection.py:24-92 | On a script that parses, there is one issue per finding, in walk order, each at its Call's `lineno`. |
| SyntaxTree.Text | src/ast_parsers/javascript_parser.py:46-48 | Reference definition of `get_text`: the node's byte range, clamped, decoded with errors ignored. The shell parser decodes the same way (src/ast_parsers/shell_parser.py:48). The JavaScript and shell kind tests are stated with it. |
| SyntaxTree.Line | src/ast_parsers/javascript_parser.py:60 | The reported line, start row plus one, is at least 1. |
| SyntaxTree.ChildByFieldName | src/ast_parsers/javascript_parser.py:54 | The result is a child held under that field, and it is None iff no child is. |
| SyntaxTree.Slice | src/ast_parsers/javascript_parser.py:48 | Byte slicing clamps both bounds to the length as Python does, and is the plain slice when in bounds. |
| SyntaxTree.TraversalIsPreOrder | src/ast_parsers/javascript_parser.py:50-97 | Recursive traversal equals visiting the pre-order node list one node at a time. |
| SyntaxTree.TraversalFindsExactly | src/ast_parsers/shell_parser.py:44-65 | A finding is reported iff some node of the tree contributes it. With at most one finding per node, there are no more findings than nodes. |
| SyntaxTree.TraversalFindsSingletons | src/ast_parsers/shell_parser.py:44-65 | With at most one finding per node, a finding is reported iff some node contributes exactly it. |
| JavaScriptParser.MemberProperty | src/ast_parsers/javascript_parser.py:102-105 | Reference definition of the property text that `_is_child_process_call` and `_is_vm_call` test. `CallKind` is stated with it. |
| JavaScriptParser.CalleeText | src/ast_parsers/javascript_parser.py:53-56 | Reference definition of the text of a call's `function` field. `CallKind` is stated against it. |
| JavaScriptParser.HasStringArgument | src/ast_parsers/javascript_parser.py:66-74 | Reference definition of the timer test: the first non-empty `arguments` child holds a `string` child. `TimerHasStringArgument` and `CallKind` are stated against it. |
| JavaScriptParser.FirstNonEmptyArguments | src/ast_parsers/javascript_parser.py:67-68 | The result is an `arguments` child with children, and it is None iff there is none. |
| JavaScriptParser.CallKind | src/ast_parsers/javascript_parser.py:53-83 | The if/elif chain of the call branch: every kind it gives is one of the JavaScript kinds; `eval` and `Function` iff the callee text is that name; a timer iff the callee is `setTimeout`/`setInterval` with a string argument; `child_process` iff the callee is neither `eval`, `Function` nor a timer and is a bare child-process name or a child-process member call; the vm kind iff the remaining member-call test holds. |
| JavaScriptParser.NewKind | src/ast_parsers/javascript_parser.py:86-91 | `new_Function` iff the node is a `new_expression` whose `constructor` field text is `Function`. |
| JavaScriptParser.NodeFindings | src/ast_parsers/javascript_parser.py:52-91 | A node gives at most one finding, at its own line and of a known kind, iff the call or new branch names a kind. |
| JavaScriptParser.TimerHasStringArgument | src/ast_parsers/javascript_parser.py:65-74 | The nested loop with its breaks finds a string child in the first non-empty `arguments` child. |
| JavaScriptParser.CallBranch | src/ast_parsers/javascript_parser.py:53-83 | The call branch computes the chain's kind. |
| JavaScriptParser.NewBranch | src/ast_parsers/javascript_parser.py:86-91 | The new branch computes the constructor kind. |
| JavaScriptParser.VisitNode | src/ast_parsers/javascript_parser.py:52-91 | One visit appends the node's own finding. |
| JavaScriptParser.Traverse | src/ast_parsers/javascript_parser.py:50-95 | `traverse` appends the tree's findings in pre-order to what was already collected. |
| JavaScriptParser.FindingsAreTheMatchingNodes | src/ast_parsers/javascript_parser.py:50-97 | A finding is reported iff some node gives exactly it, and there are never more findings than nodes. |
| JavaScriptParser.JavaScriptASTParser.constructor | src/ast_parsers/javascript_parser.py:11-15 | A new parser has no stored bytes. |
| JavaScriptParser.JavaScriptASTParser.Parse | src/ast_parsers/javascript_parser.py:17-30 | The encoding is stored before parsing. An encoding failure keeps the old bytes and gives None. Otherwise the result is the parser's result. |
| JavaScriptParser.JavaScriptASTParser.FindDangerousPatterns | src/ast_parsers/javascript_parser.py:32-98 | With no stored bytes there are no findings. Otherwise the result is the pre-order findings over the stored bytes. |
| TreeRule.Truncate | src/rules/ast/javascript_injection.py:33-35 | A snippet of at most 100 characters is kept whole. A longer one becomes its first 100 characters plus `...`, so no snippet exceeds 103 characters. |
| TreeRule.TruncateIdempotent | src/rules/ast/javascript_injection.py:33-35 | Cutting a cut snippet changes nothing. |
| TreeRule.Snippet | src/rules/ast/javascript_injection.py:32-37 | The snippet is the strictly decoded node bytes, cut. When they are not valid UTF-8, it is `<kind>(...)`. |
| TreeRule.ReportFindings | src/rules/ast/javascript_injection.py:31-41 | The loop appends the table's issue for each finding, in finding order. |
| TreeRule.OneIssuePerFinding | src/rules/ast/shell_injection.py:32-73 | When the table names every kind, each finding gives exactly one issue, at the same position. |
| JavaScriptInjection.CreateIssue | src/rules/ast/javascript_injection.py:45-104 | Exactly the six kinds give an issue, with the finding's line and snippet. Each maps to its `JS_AST_*` id: eval, Function and new Function CRITICAL; timer, child process and vm HIGH. |
| JavaScriptInjection.CheckResult | src/rules/ast/javascript_injection.py:14-43 | A failed encoding or parse gives no issues. |
| JavaScriptInjection.JavaScriptInjectionRule.constructor | src/rules/ast/javascript_injection.py:11-12 | The rule owns a fresh parser with no stored bytes. |
| JavaScriptInjection.JavaScriptInjectionRule.Check | src/rules/ast/javascript_injection.py:14-43 | `check` returns a result that depends on the script alone, and it leaves the script's encoding stored in its parser. |
| JavaScriptInjection.CheckReportsEveryFinding | src/rules/ast/javascript_injection.py:14-43 | On a script that encodes and parses, there is one issue per finding, in pre-order, each at its node's line. |
| ShellParser.IsPipeToShell | src/ast_parsers/shell_parser.py:68-86 | The early-returning nested loop finds a `command` child whose `command_name` is bash, sh or zsh. |
| ShellParser.NodeFindings | src/ast_parsers/shell_parser.py:44-60 | A node gives at most one finding, at its own line: `eval` iff it is a `command_name` reading `eval`; `pipe_to_shell` iff it is a pipeline into a shell; `command_substitution` iff it is one. |
| ShellParser.VisitNode | src/ast_parsers/shell_parser.py:44-60 | One visit appends the node's own finding. |
| ShellParser.Traverse | src/ast_parsers/shell_parser.py:44-63 | `traverse` appends the tree's findings in pre-order. |
| ShellParser.FindingsAreTheMatchingNodes | src/ast_parsers/shell_parser.py:44-66 | A finding is reported iff some node gives exactly it, and there are never more findings than nodes. |
| ShellParser.EveryCommandSubstitutionIsFound | src/ast_parsers/shell_parser.py:57-59 | Every command substitution in the tree is found at its own line. |
| ShellParser.ShellASTParser.constructor | src/ast_parsers/shell_parser.py:11-15 | A new parser has no stored bytes. |
| ShellParser.ShellASTParser.Parse | src/ast_parsers/shell_parser.py:17-30 | The encoding is stored before parsing. An encoding failure keeps the old bytes and gives None. |
| ShellParser.ShellASTParser.FindDangerousPatterns | src/ast_parsers/shell_parser.py:32-66 | The result is the pre-order findings over the stored bytes. |
| ShellInjection.CreateIssue | src/rules/ast/shell_injection.py:42-71 | Exactly the three kinds give an issue, with line and snippet: `SH_AST_EVAL` CRITICAL, `SH_AST_PIPE_TO_SHELL` HIGH, `SH_AST_CMD_SUBST` MEDIUM. |
| ShellInjection.CheckResult | src/rules/ast/shell_injection.py:14-73 | A failed encoding or parse gives no issues. |
| ShellInjection.ShellInjectionRule.constructor | src/rules/ast/shell_injection.py:11-12 | The rule owns a fresh parser with no stored bytes. |
| ShellInjection.ShellInjectionRule.Check | src/rules/ast/shell_injection.py:14-73 | `check` returns a result that depends on the script alone, and it leaves the script's encoding stored. |
| ShellInjection.CheckReportsEveryFinding | src/rules/ast/shell_injection.py:14-73 | On a script that parses, there is one issue per finding, in pre-order, each at its node's line. |
| ShellInjection.EveryCommandSubstitutionIsReported | src/rules/ast/shell_injection.py:62-71 | Every command substitution gives a MEDIUM `SH_AST_CMD_SUBST` issue on its line. |
| IssueLists.Then | src/scanner.py:59-62 | Appending results succeeds iff both parts do, and lengths add. The first exception wins. |
| IssueLists.CollectStep | src/scanner.py:59-62 | One more turn of an append-or-raise loop appends one more result. |
| IssueLists.CollectRaisedPrefix | src/scanner.py:59-62 | Once a prefix raises, the whole loop raises the same exception. |
| IssueLists.ThenAssociative | src/scanner.py:59-62 | The grouping of appends does not matter. |
| IssueLists.CollectConcat | src/scanner.py:59-62 | Looping over two lists in a row is looping over their concatenation. |
| IssueLists.CollectOne | src/scanner.py:59-62 | A loop over one element is that element's result. |
| IssueLists.CollectPrefixOfPair | src/scanner.py:59-62 | Whenever the loop over a pair completes, the loop over its first element completes too, with a subsequence of the pair's result. |
| Scanner.ModeAnalyzers | src/scanner.py:28-49 | Every mode starts with the regex analyzer. The syntax-tree analyzer runs iff the mode is not FAST. |
| Scanner.InitAnalyzers | src/scanner.py:28-49 | The appending code builds the mode's analyzer list. |
| Scanner.AnalyzerResult | src/scanner.py:61 | Reference definition of one analyzer's `analyze` on a script, an exception included. `SkillScanner.RunAnalyzer` is stated against it. |
| Scanner.ScriptIssues | src/scanner.py:60-62 | Reference definition of the inner loop: each analyzer's issues in turn, stopping at the first exception. `SkillScanner.ScanScript` and `FastScriptIsPrefix` are stated against it. |
| Scanner.ScanIssues | src/scanner.py:56-62 | Reference definition of the outer loop: each script's issues in turn, stopping at the first exception. `ScanWith`, `ScanIsAdditive` and `FastIsSubsequenceOfStandard` are stated against it, and `SkillScanner.ScanScripts` through `ScanWith`. |
| Scanner.ScanWith | src/scanner.py:51-64 | A completed scan carries the skill path unchanged. It completes iff no analyzer raises. |
| Scanner.SkillScanner.constructor | src/scanner.py:19-26 | The scanner keeps its mode and the mode's analyzer list. |
| Scanner.SkillScanner.RunAnalyzer | src/scanner.py:61 | One analyzer's `analyze` result. |
| Scanner.SkillScanner.ScanScript | src/scanner.py:60-62 | The inner loop appends every analyzer's issues for one script, in order. |
| Scanner.SkillScanner.ScanScripts | src/scanner.py:56-64 | The outer loop collects the issues of every script, in order, under the skill path. |
| Scanner.SkillScanner.Scan | src/scanner.py:51-64 | `scan` returns the scan of the scripts the skill parser collects: blocks first, then directory files. |
| Scanner.DeepIsStandard | src/scanner.py:39-47 | DEEP and STANDARD give identical results. |
| Scanner.FastNeverRaises | src/scanner.py:36-38 | A FAST scan always completes. |
| Scanner.FastScriptIsPrefix | src/scanner.py:36-46 | On one script, the FAST issues form a subsequence of the STANDARD issues. |
| Scanner.FastIsSubsequenceOfStandard | src/scanner.py:36-64 | Whenever STANDARD completes, FAST completes too, with a subsequence of its issues. |
| Scanner.ScanIsAdditive | src/scanner.py:56-64 | Scanning two script lists gives the issues of the first, then the second. Critical and high counts add. |
| Scanner.NoScriptsIsSafe | src/scanner.py:56-64 | A skill without scripts gives an empty, safe result. |
| SkillParsing.NormalizeLanguage | src/parser.py:61 | `bash` and `sh` become `shell`; every other language is kept. |
| SkillParsing.FenceLanguagesNormalize | src/parser.py:54-61 | Every fence language normalises to python, javascript or shell. |
| SkillParsing.DetectLanguageFromExtension | src/parser.py:81-96 | `.py` gives python, `.js` javascript, and `.sh`/`.bash` shell. The result is `unknown` iff the suffix is none of these. |
| SkillParsing.BlockEntries | src/parser.py:57-62 | There is one entry per fenced block. |
| SkillParsing.Collected | src/parser.py:69 | Reference definition of the directory filter: a regular file with a `.sh`, `.bash`, `.py` or `.js` suffix. `DirectoryEntriesAreKnown` is stated with it. |
| SkillParsing.FileEntries | src/parser.py:64-75 | Reference definition of the entries recorded from the directory, in listing order. `DirectoryEntriesAreKnown` and `SkillParser.ExtractScriptsFromDirectory` are stated against it. |
| SkillParsing.DirectoryEntriesAreKnown | src/parser.py:64-75 | An entry is recorded iff it comes from a regular file with a script suffix, so no directory script is `unknown` and every offset is 0. |
| SkillParsing.ToScript | src/parser.py:105-111 | A script keeps the entry's content, language and offset. Its source is `markdown` iff the offset is 0. |
| SkillParsing.ToScripts | src/parser.py:104-112 | There is one script per entry. |
| SkillParsing.ScriptsAreMarkdown | src/parser.py:104-112 | An entry at offset 0 becomes a markdown script at offset 0 with its content and language. |
| SkillParsing.SkillScripts | src/parser.py:51-75 | There are as many scripts as fenced blocks plus collected files. |
| SkillParsing.EveryScriptIsMarkdown | src/parser.py:57-111 | Every script handed to the scanner has offset 0 and source `markdown`, the files of `scripts/` included. |
| SkillParsing.SkillParser.constructor | src/parser.py:12-17 | A new parser has empty lists. |
| SkillParsing.SkillParser.ExtractCodeBlocks | src/parser.py:51-62 | Each block's code and normalised entry are appended, in order, and the two lists stay in lock-step. |
| SkillParsing.SkillParser.ExtractScriptsFromDirectory | src/parser.py:64-75 | Each collected file is appended, in listing order, and the lists stay in lock-step. |
| SkillParsing.SkillParser.GetAllScripts | src/parser.py:77-79 | The contents come out in lock-step with the recorded entries. |
| SkillParsing.SkillParser.GetAllScriptsWithMetadata | src/parser.py:98-112 | There is one script per recorded entry, in order. |
| SkillParsing.SkillParser.Parse | src/parser.py:19-38 | Parsing records the blocks and then the files, keeping the lists in lock-step. |

## Left out

- Formatters, the progress display, and `print_result`, `_print_issue` and `main` of the scanner are presentation and process-exit code.
- `src/config.py` is not part of this model. No engine code reads it.
- Reading the skill is not modelled: path-existence checks and `FileNotFoundError`, reading `SKILL.md` and files, the `glob` order, YAML frontmatter, and the fence regex. The extractors receive the fenced blocks and the directory listing already split.
- SkillParsing.SkillParser.Parse: always returns true, because the error paths that raise belong to that reading.
- The meaning of the non-literal regular expressions is left to the `re` engine parameter. The model only requires its matches to be in bounds, in order and non-overlapping. The concrete search covers only literal patterns.
- Python's `ast.parse`, `ast.get_source_segment`, tree-sitter parsing and UTF-8 encoding and decoding are parameters. Their results are taken as given.
- The `tree.root_node is None` test of the shell rule is not modelled, because a tree-sitter tree always has a root node.
- ShellParser.ShellASTParser.FindDangerousPatterns: requires bytes stored by an earlier parse. Without them, the source fails with a TypeError only on trees that contain a `command_name` node. That call order never occurs in the engine, because `check` always parses first.
- Issues are values. The analyzer's in-place `issue.line_number += offset` is modelled as a new list of issues, so aliasing between a rule's returned list and the analyzer's list is not captured.
- The JavaScript rule is modelled but, as in the source, wired into no analyzer.
- The scanner holds one analyzer object of each kind and a list of kinds. This is instead of a list of analyzer objects.
- The `name` properties and the `Severity`/`AnalysisMode` values carry no contracts.
- JavaScriptParser.IsChildProcessCall, JavaScriptParser.IsVmCall and ShellParser.PipesToShell: predicates without contracts of their own. They are characterised through `CallKind`, `NodeFindings` and `IsPipeToShell`.
- The example script `run.py` is sample input, not engine code.
