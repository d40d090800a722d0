/**
 * What the JavaScript and shell injection rules share: the code snippet of a
 * tree-sitter finding (strict UTF-8 decoding of the node's bytes, cut to 100
 * characters) and the loop that turns findings into issues through a table.
 */
module TreeRule {
  import opened Wrappers
  import opened Types
  import opened SyntaxTree
  import opened Foreign
  import opened SeqUtil

  /** The longest snippet kept whole. */
  const SnippetLimit: nat := 100

  /** A snippet longer than the limit keeps its first 100 characters and gains "...". */
  function Truncate(s: string): (r: string)
    ensures |s| <= SnippetLimit ==> r == s
    ensures |s| > SnippetLimit ==> |r| == SnippetLimit + 3 && r[..SnippetLimit] == s[..SnippetLimit] &&
                                   r[SnippetLimit..] == "..."
    ensures |r| <= SnippetLimit + 3
  {
    if |s| > SnippetLimit then s[..SnippetLimit] + "..." else s
  }

  /** Cutting an already cut snippet changes nothing. */
  lemma TruncateIdempotent(s: string)
    ensures Truncate(Truncate(s)) == Truncate(s)
  {
    if |s| > SnippetLimit {
      var r := Truncate(s);
      assert r[..SnippetLimit] == s[..SnippetLimit];
      assert r[..SnippetLimit] + r[SnippetLimit..] == r;
    }
  }

  /**
   * The snippet of a finding: the node's bytes decoded strictly and cut, or
   * `<kind>(...)` when they are not valid UTF-8.
   */
  function Snippet(bytes: Bytes, env: Env, f: Finding): (s: string)
    ensures env.decodeStrict(Slice(bytes, f.node.startByte, f.node.endByte)).None? ==> s == f.kind + "(...)"
    ensures env.decodeStrict(Slice(bytes, f.node.startByte, f.node.endByte)).Some? ==>
              s == Truncate(env.decodeStrict(Slice(bytes, f.node.startByte, f.node.endByte)).value)
  {
    match env.decodeStrict(Slice(bytes, f.node.startByte, f.node.endByte))
    case Some(text) => Truncate(text)
    case None => f.kind + "(...)"
  }

  /** A rule's table: the issue for a kind at a line with a snippet, or None for a kind it does not name. */
  type Table = (string, int, string) -> Option<SecurityIssue>

  /** What one finding adds to the issue list. */
  function FindingIssues(table: Table, bytes: Bytes, env: Env, f: Finding): seq<SecurityIssue> {
    match table(f.kind, f.line, Snippet(bytes, env, f))
    case Some(issue) => [issue]
    case None => []
  }

  function IssueMapper(table: Table, bytes: Bytes, env: Env): Finding -> seq<SecurityIssue> {
    f => FindingIssues(table, bytes, env, f)
  }

  /** The issues for a list of findings, in finding order. */
  function IssuesFor(table: Table, bytes: Bytes, env: Env, findings: seq<Finding>): seq<SecurityIssue> {
    FlatMap(IssueMapper(table, bytes, env), findings)
  }

  /**
   * The rule's loop: one table lookup per finding, appending what it gives.
   * Each rule's source carries its own copy of this loop. The JavaScript and
   * shell copies are the same and share this method. The Python copy takes
   * its snippets differently and stays in its own module.
   */
  method ReportFindings(table: Table, bytes: Bytes, env: Env, patterns: seq<Finding>)
    returns (issues: seq<SecurityIssue>)
    ensures issues == IssuesFor(table, bytes, env, patterns)
  {
    issues := [];
    var i := 0;
    while i < |patterns|
      invariant 0 <= i <= |patterns|
      invariant issues == IssuesFor(table, bytes, env, patterns[..i])
    {
      var f := patterns[i];
      var snippet := Snippet(bytes, env, f);
      var issue := table(f.kind, f.line, snippet);
      if issue.Some? {
        issues := issues + [issue.value];
      }
      FlatMapSnoc(IssueMapper(table, bytes, env), patterns, i);
      i := i + 1;
    }
    assert patterns[..i] == patterns;
  }

  /**
   * When the table names every finding's kind, each finding yields exactly
   * one issue, at the same position, built from the finding's kind, line and snippet.
   * This restates the Python rule's lemma for the loop shared by the
   * JavaScript and shell rules.
   */
  lemma OneIssuePerFinding(table: Table, bytes: Bytes, env: Env, findings: seq<Finding>)
    requires forall f :: f in findings ==> table(f.kind, f.line, Snippet(bytes, env, f)).Some?
    ensures |IssuesFor(table, bytes, env, findings)| == |findings|
    ensures forall i :: 0 <= i < |findings| ==>
              IssuesFor(table, bytes, env, findings)[i]
                == table(findings[i].kind, findings[i].line, Snippet(bytes, env, findings[i])).value
  {
    var m := IssueMapper(table, bytes, env);
    forall f | f in findings
      ensures m(f) == [table(f.kind, f.line, Snippet(bytes, env, f)).value]
    {
    }
    FlatMapSingletons(m, findings);
    forall i | 0 <= i < |findings|
      ensures IssuesFor(table, bytes, env, findings)[i]
                == table(findings[i].kind, findings[i].line, Snippet(bytes, env, findings[i])).value
    {
      assert findings[i] in findings;
    }
  }
}
