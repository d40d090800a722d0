/**
 * The shape shared by the four table-driven regex rules: for each table
 * entry in order, every match `re.finditer` reports (MULTILINE always set,
 * IGNORECASE when the rule asks for it) becomes one issue carrying the rule's
 * id, title and recommendation, the entry's description and severity, the
 * matched text and its 1-based line.
 */
module RegexRules {
  import opened Wrappers
  import opened Types
  import opened Spans
  import opened Foreign
  import opened SeqUtil

  type NonEmptyString = s: string | s != [] witness "?"

  /**
   * A table pattern, kept as its regex source. A pattern without
   * metacharacters also carries the literal it matches, and is searched
   * concretely; any other pattern goes to the `re` engine.
   */
  datatype Pattern = Literal(source: string, text: NonEmptyString) | Regex(source: string)

  /** One row of a rule's table. */
  datatype Entry = Entry(pattern: Pattern, description: string, severity: Severity)

  /** A regex rule: the fixed parts of its issues, its table, and whether it ignores case. */
  datatype Rule = Rule(ruleId: string, title: string, recommendation: string, table: seq<Entry>, ignoreCase: bool)

  /** Spans that are ranges of `text`. */
  predicate InBounds(spans: seq<Span>, text: string) {
    forall i :: 0 <= i < |spans| ==> spans[i].start <= spans[i].stop <= |text|
  }

  /** The matches of one pattern in `text`. */
  function SpansOf(p: Pattern, text: string, ignoreCase: bool, env: Env): (r: seq<Span>)
    ensures InBounds(r, text)
  {
    match p
    case Literal(_, lit) =>
      LiteralSpansSound(text, lit, ignoreCase, 0);
      LiteralSpans(text, lit, ignoreCase, 0)
    case Regex(source) =>
      env.regex(source, text, ignoreCase)
  }

  /** The matches run left to right without overlapping, and those of a literal are its occurrences. */
  lemma SpansOfSound(p: Pattern, text: string, ignoreCase: bool, env: Env)
    ensures WellFormed(SpansOf(p, text, ignoreCase, env), text)
    ensures p.Literal? ==> forall s :: s in SpansOf(p, text, ignoreCase, env) ==>
              s.stop == s.start + |p.text| && OccursAt(text, p.text, s.start, ignoreCase)
  {
    if p.Literal? {
      LiteralSpansSound(text, p.text, ignoreCase, 0);
    }
  }

  /** The issue one match of entry `e` produces. */
  function MatchIssue(rule: Rule, e: Entry, text: string, s: Span): SecurityIssue
    requires s.start <= s.stop <= |text|
  {
    var matched := text[s.start..s.stop];
    SecurityIssue(rule.ruleId, rule.title, e.description + ": " + matched, e.severity,
                  Some(LineAt(text, s.start)), Some(matched), Some(rule.recommendation))
  }

  /** The issues for a list of matches of entry `e`, one each, in match order. */
  function MatchIssues(rule: Rule, e: Entry, text: string, spans: seq<Span>): seq<SecurityIssue>
    requires InBounds(spans, text)
  {
    seq(|spans|, i requires 0 <= i < |spans| => MatchIssue(rule, e, text, spans[i]))
  }

  /** The issues of one table entry. */
  function EntryIssues(rule: Rule, e: Entry, text: string, env: Env): seq<SecurityIssue> {
    MatchIssues(rule, e, text, SpansOf(e.pattern, text, rule.ignoreCase, env))
  }

  function EntryMapper(rule: Rule, text: string, env: Env): Entry -> seq<SecurityIssue> {
    e => EntryIssues(rule, e, text, env)
  }

  /** What `check` returns: the issues of each table entry in turn. */
  function Issues(rule: Rule, text: string, env: Env): seq<SecurityIssue> {
    FlatMap(EntryMapper(rule, text, env), rule.table)
  }

  /** The inner loop of `check`: one issue per match, with the line counted from the script's start. */
  method ReportMatches(rule: Rule, entry: Entry, script: string, matches: seq<Span>) returns (issues: seq<SecurityIssue>)
    requires InBounds(matches, script)
    ensures issues == MatchIssues(rule, entry, script, matches)
  {
    issues := [];
    var j := 0;
    while j < |matches|
      invariant 0 <= j <= |matches|
      invariant issues == MatchIssues(rule, entry, script, matches[..j])
    {
      var m := matches[j];
      var lineNumber := CountNewlines(script[..m.start]) + 1;
      var matched := script[m.start..m.stop];
      issues := issues + [SecurityIssue(rule.ruleId, rule.title, entry.description + ": " + matched,
                                        entry.severity, Some(lineNumber), Some(matched),
                                        Some(rule.recommendation))];
      assert MatchIssues(rule, entry, script, matches[..j + 1])
          == MatchIssues(rule, entry, script, matches[..j]) + [MatchIssue(rule, entry, script, m)];
      j := j + 1;
    }
    assert matches[..j] == matches;
  }

  /** `check`: the outer loop over the table, each entry's matches from `re.finditer`. */
  method Check(rule: Rule, script: string, env: Env) returns (issues: seq<SecurityIssue>)
    ensures issues == Issues(rule, script, env)
  {
    issues := [];
    var k := 0;
    while k < |rule.table|
      invariant 0 <= k <= |rule.table|
      invariant issues == FlatMap(EntryMapper(rule, script, env), rule.table[..k])
    {
      var entry := rule.table[k];
      var matches := SpansOf(entry.pattern, script, rule.ignoreCase, env);
      var found := ReportMatches(rule, entry, script, matches);
      issues := issues + found;
      FlatMapSnoc(EntryMapper(rule, script, env), rule.table, k);
      k := k + 1;
    }
    assert rule.table[..k] == rule.table;
  }

  /**
   * The shape every issue of a regex rule has: the rule's id, title and
   * recommendation; the description, severity and a match of one table
   * entry; a snippet that is a piece of the script, and the line it starts on.
   */
  ghost predicate IssueFromTable(rule: Rule, text: string, issue: SecurityIssue) {
    issue.ruleId == rule.ruleId && issue.title == rule.title &&
    issue.recommendation == Some(rule.recommendation) &&
    exists k, s: Span :: 0 <= k < |rule.table| && s.start <= s.stop <= |text| &&
                   issue == MatchIssue(rule, rule.table[k], text, s)
  }

  /**
   * Every issue a regex rule reports comes from a table entry and a match
   * within the script: it has a severity of the table and a line of the script.
   */
  lemma IssuesComeFromTable(rule: Rule, text: string, env: Env, issue: SecurityIssue)
    requires issue in Issues(rule, text, env)
    ensures IssueFromTable(rule, text, issue)
    ensures exists k :: 0 <= k < |rule.table| && issue.severity == rule.table[k].severity
    ensures issue.lineNumber.Some? && 1 <= issue.lineNumber.value <= 1 + CountNewlines(text)
  {
    FlatMapMembership(EntryMapper(rule, text, env), rule.table, issue);
    var k :| 0 <= k < |rule.table| && issue in EntryMapper(rule, text, env)(rule.table[k]);
    var spans := SpansOf(rule.table[k].pattern, text, rule.ignoreCase, env);
    var i :| 0 <= i < |spans| && EntryIssues(rule, rule.table[k], text, env)[i] == issue;
    assert issue == MatchIssue(rule, rule.table[k], text, spans[i]);
  }

  /** Every match of a table entry is reported as an issue of the rule. */
  lemma MatchIsReported(rule: Rule, text: string, env: Env, k: nat, s: Span)
    requires k < |rule.table| && s in SpansOf(rule.table[k].pattern, text, rule.ignoreCase, env)
    ensures s.start <= s.stop <= |text|
    ensures MatchIssue(rule, rule.table[k], text, s) in Issues(rule, text, env)
  {
    var e := rule.table[k];
    var spans := SpansOf(e.pattern, text, rule.ignoreCase, env);
    var i :| 0 <= i < |spans| && spans[i] == s;
    var issue := MatchIssue(rule, e, text, s);
    assert EntryIssues(rule, e, text, env)[i] == issue;
    assert issue in EntryMapper(rule, text, env)(e);
    FlatMapMembership(EntryMapper(rule, text, env), rule.table, issue);
  }

  /** The match of a literal entry that covers an occurrence at `pos`: it is an occurrence of the literal itself. */
  lemma CoveringMatch(rule: Rule, text: string, env: Env, k: nat, pos: nat) returns (s: Span)
    requires k < |rule.table| && rule.table[k].pattern.Literal?
    requires OccursAt(text, rule.table[k].pattern.text, pos, rule.ignoreCase)
    ensures s in SpansOf(rule.table[k].pattern, text, rule.ignoreCase, env)
    ensures s.start <= pos < s.stop == s.start + |rule.table[k].pattern.text| <= |text|
    ensures OccursAt(text, rule.table[k].pattern.text, s.start, rule.ignoreCase)
  {
    var e := rule.table[k];
    LiteralSpansComplete(text, e.pattern.text, rule.ignoreCase, 0, pos);
    SpansOfSound(e.pattern, text, rule.ignoreCase, env);
    s :| s in SpansOf(e.pattern, text, rule.ignoreCase, env) && s.start <= pos < s.stop;
  }

  /**
   * A literal entry misses no occurrence: each one lies inside a match of
   * that literal which is reported as an issue of that entry, on the line
   * the match starts.
   */
  lemma LiteralOccurrenceIsReported(rule: Rule, text: string, env: Env, k: nat, pos: nat)
    requires k < |rule.table| && rule.table[k].pattern.Literal?
    requires OccursAt(text, rule.table[k].pattern.text, pos, rule.ignoreCase)
    ensures exists s: Span :: s.start <= pos < s.stop == s.start + |rule.table[k].pattern.text| <= |text| &&
                              OccursAt(text, rule.table[k].pattern.text, s.start, rule.ignoreCase) &&
                              MatchIssue(rule, rule.table[k], text, s) in Issues(rule, text, env)
  {
    var s := CoveringMatch(rule, text, env, k, pos);
    MatchIsReported(rule, text, env, k, s);
  }

  /**
   * The issue reported for an occurrence of a literal entry carries that
   * entry's severity and, as its snippet, the occurrence as spelt in the script.
   */
  lemma LiteralIssueIsReported(rule: Rule, text: string, env: Env, k: nat, pos: nat)
    requires k < |rule.table| && rule.table[k].pattern.Literal?
    requires OccursAt(text, rule.table[k].pattern.text, pos, rule.ignoreCase)
    ensures exists issue, start: nat :: issue in Issues(rule, text, env) &&
              start <= pos < start + |rule.table[k].pattern.text| <= |text| &&
              OccursAt(text, rule.table[k].pattern.text, start, rule.ignoreCase) &&
              issue.severity == rule.table[k].severity &&
              issue.codeSnippet == Some(text[start..start + |rule.table[k].pattern.text|])
  {
    var s := CoveringMatch(rule, text, env, k, pos);
    MatchIsReported(rule, text, env, k, s);
    ReportedMatchIssue(rule, text, env, k, pos, s);
  }

  /** The issue of a reported match that covers `pos`, with its severity and snippet. */
  lemma ReportedMatchIssue(rule: Rule, text: string, env: Env, k: nat, pos: nat, s: Span)
    requires k < |rule.table| && rule.table[k].pattern.Literal?
    requires s.start <= pos < s.stop == s.start + |rule.table[k].pattern.text| <= |text|
    requires OccursAt(text, rule.table[k].pattern.text, s.start, rule.ignoreCase)
    requires MatchIssue(rule, rule.table[k], text, s) in Issues(rule, text, env)
    ensures exists issue, start: nat :: issue in Issues(rule, text, env) &&
              start <= pos < start + |rule.table[k].pattern.text| <= |text| &&
              OccursAt(text, rule.table[k].pattern.text, start, rule.ignoreCase) &&
              issue.severity == rule.table[k].severity &&
              issue.codeSnippet == Some(text[start..start + |rule.table[k].pattern.text|])
  {
    var issue := MatchIssue(rule, rule.table[k], text, s);
    var start: nat := s.start;
    assert issue.severity == rule.table[k].severity && issue.codeSnippet == Some(text[start..s.stop]);
  }

  /**
   * For a rule that matches case-sensitively, an occurrence of a literal
   * entry yields an issue whose snippet is exactly that literal.
   */
  lemma ExactLiteralIsReported(rule: Rule, text: string, env: Env, k: nat, pos: nat)
    requires k < |rule.table| && rule.table[k].pattern.Literal? && !rule.ignoreCase
    requires OccursAt(text, rule.table[k].pattern.text, pos, false)
    ensures exists issue :: issue in Issues(rule, text, env) &&
              issue.severity == rule.table[k].severity &&
              issue.codeSnippet == Some(rule.table[k].pattern.text) &&
              issue.description == rule.table[k].description + ": " + rule.table[k].pattern.text
  {
    var s := CoveringMatch(rule, text, env, k, pos);
    MatchIsReported(rule, text, env, k, s);
    ExactOccurrence(text, rule.table[k].pattern.text, s.start);
    var issue := MatchIssue(rule, rule.table[k], text, s);
    assert issue.codeSnippet == Some(rule.table[k].pattern.text);
  }

  /**
   * An occurrence of a literal entry with no occurrence before it is itself
   * a match, and its issue is reported.
   */
  lemma FirstLiteralIsReported(rule: Rule, text: string, env: Env, k: nat, pos: nat)
    requires k < |rule.table| && rule.table[k].pattern.Literal?
    requires OccursAt(text, rule.table[k].pattern.text, pos, rule.ignoreCase)
    requires forall q: nat :: q < pos ==> !OccursAt(text, rule.table[k].pattern.text, q, rule.ignoreCase)
    ensures pos + |rule.table[k].pattern.text| <= |text|
    ensures MatchIssue(rule, rule.table[k], text, Span(pos, pos + |rule.table[k].pattern.text|)) in Issues(rule, text, env)
  {
    var s := CoveringMatch(rule, text, env, k, pos);
    MatchIsReported(rule, text, env, k, s);
  }

  /** When no table entry has severity `s`, no issue has it either. */
  lemma SeveritiesAvoid(rule: Rule, text: string, env: Env, s: Severity)
    requires forall k :: 0 <= k < |rule.table| ==> rule.table[k].severity != s
    ensures forall issue :: issue in Issues(rule, text, env) ==> issue.severity != s
  {
    forall issue | issue in Issues(rule, text, env)
      ensures issue.severity != s
    {
      IssuesComeFromTable(rule, text, env, issue);
    }
  }

  /** When every table entry has a severity in `allowed`, so does every issue. */
  lemma SeveritiesWithin(rule: Rule, text: string, env: Env, allowed: set<Severity>)
    requires forall k :: 0 <= k < |rule.table| ==> rule.table[k].severity in allowed
    ensures forall issue :: issue in Issues(rule, text, env) ==> issue.severity in allowed
  {
    forall issue | issue in Issues(rule, text, env)
      ensures issue.severity in allowed
    {
      IssuesComeFromTable(rule, text, env, issue);
    }
  }
}
