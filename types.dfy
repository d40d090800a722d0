/**
 * The shared value types of the scanner: severities, analysis modes,
 * scripts, security issues and the summary of a scan.
 */
module Types {
  import opened Wrappers

  /** The four risk levels; `Label` is the text each one carries. */
  datatype Severity = LOW | MEDIUM | HIGH | CRITICAL {
    function Label(): string {
      match this
      case LOW => "低"
      case MEDIUM => "中"
      case HIGH => "高"
      case CRITICAL => "严重"
    }
  }

  /** How much analysis a scan runs. */
  datatype AnalysisMode = FAST | STANDARD | DEEP {
    function Value(): string {
      match this
      case FAST => "fast"
      case STANDARD => "standard"
      case DEEP => "deep"
    }
  }

  /**
   * One script to analyse: its text, its language tag ('python',
   * 'javascript', 'shell' or 'unknown'), where it came from, and the line of
   * the containing document it starts after.
   */
  datatype Script = Script(content: string, language: string, source: string, lineOffset: int)

  /** Builds a Script the way the dataclass does when `line_offset` is omitted. */
  function NewScript(content: string, language: string, source: string): (s: Script)
    ensures s.content == content && s.language == language && s.source == source
    ensures s.lineOffset == 0
  {
    Script(content, language, source, 0)
  }

  /** One finding reported to the user. */
  datatype SecurityIssue = SecurityIssue(
    ruleId: string,
    title: string,
    description: string,
    severity: Severity,
    lineNumber: Option<int>,
    codeSnippet: Option<string>,
    recommendation: Option<string>)

  /** Builds an issue the way the dataclass does when the optional fields are omitted. */
  function NewIssue(ruleId: string, title: string, description: string, severity: Severity): (i: SecurityIssue)
    ensures i.ruleId == ruleId && i.title == title && i.description == description
    ensures i.severity == severity
    ensures i.lineNumber == None && i.codeSnippet == None && i.recommendation == None
  {
    SecurityIssue(ruleId, title, description, severity, None, None, None)
  }

  /** The severities of `issues`, in order. */
  function Severities(issues: seq<SecurityIssue>): (r: seq<Severity>)
    ensures |r| == |issues|
    ensures forall i :: 0 <= i < |issues| ==> r[i] == issues[i].severity
  {
    if issues == [] then [] else [issues[0].severity] + Severities(issues[1..])
  }

  /** How many of `issues` have severity `s`: the multiplicity of `s` among their severities. */
  function CountSeverity(issues: seq<SecurityIssue>, s: Severity): (n: nat)
    ensures n <= |issues|
    ensures n == 0 <==> forall i :: 0 <= i < |issues| ==> issues[i].severity != s
  {
    if issues == [] then 0
    else (if issues[0].severity == s then 1 else 0) + CountSeverity(issues[1..], s)
  }

  /** The count agrees with the multiplicity of `s` in the multiset of severities. */
  lemma {:induction false} CountIsMultiplicity(issues: seq<SecurityIssue>, s: Severity)
    ensures CountSeverity(issues, s) == multiset(Severities(issues))[s]
  {
    if issues != [] {
      CountIsMultiplicity(issues[1..], s);
      assert Severities(issues) == [issues[0].severity] + Severities(issues[1..]);
    }
  }

  /** Counting is additive: the count over a concatenation is the sum of the counts. */
  lemma {:induction false} CountConcat(a: seq<SecurityIssue>, b: seq<SecurityIssue>, s: Severity)
    ensures CountSeverity(a + b, s) == CountSeverity(a, s) + CountSeverity(b, s)
  {
    if a == [] {
      assert a + b == b;
    } else {
      assert (a + b)[0] == a[0];
      assert (a + b)[1..] == a[1..] + b;
      CountConcat(a[1..], b, s);
    }
  }

  /** Every issue has exactly one of the four severities, so the four counts add up to the total. */
  lemma {:induction false} CountsPartition(issues: seq<SecurityIssue>)
    ensures CountSeverity(issues, CRITICAL) + CountSeverity(issues, HIGH)
          + CountSeverity(issues, MEDIUM) + CountSeverity(issues, LOW) == |issues|
  {
    if issues != [] {
      CountsPartition(issues[1..]);
    }
  }

  /** The result of a scan: the scanned path and every issue found, in order. */
  datatype ScanResult = ScanResult(skillPath: string, issues: seq<SecurityIssue>) {

    /** A scan is safe exactly when no issue of any severity was found. */
    function IsSafe(): (safe: bool)
      ensures safe <==> forall s: Severity :: CountSeverity(issues, s) == 0
    {
      CountsPartition(issues);
      |issues| == 0
    }

    /** The number of CRITICAL issues. */
    function CriticalCount(): (n: nat)
      ensures n <= |issues|
      ensures n == 0 <==> forall i :: 0 <= i < |issues| ==> issues[i].severity != CRITICAL
    {
      CountSeverity(issues, CRITICAL)
    }

    /** The number of HIGH issues. */
    function HighCount(): (n: nat)
      ensures n <= |issues|
      ensures n == 0 <==> forall i :: 0 <= i < |issues| ==> issues[i].severity != HIGH
    {
      CountSeverity(issues, HIGH)
    }
  }

  /** CRITICAL and HIGH issues never outnumber all issues together; they make up all of them exactly when no issue is MEDIUM or LOW. */
  lemma CriticalAndHighBounded(r: ScanResult)
    ensures r.CriticalCount() + r.HighCount() <= |r.issues|
    ensures r.CriticalCount() + r.HighCount() == |r.issues| <==>
            forall i :: 0 <= i < |r.issues| ==> r.issues[i].severity == CRITICAL || r.issues[i].severity == HIGH
  {
    CountsPartition(r.issues);
  }

  /** The counts of a scan over two issue lists are the sums of their counts. */
  lemma CountsOfConcatenation(path: string, a: seq<SecurityIssue>, b: seq<SecurityIssue>)
    ensures ScanResult(path, a + b).CriticalCount()
         == ScanResult(path, a).CriticalCount() + ScanResult(path, b).CriticalCount()
    ensures ScanResult(path, a + b).HighCount()
         == ScanResult(path, a).HighCount() + ScanResult(path, b).HighCount()
    ensures ScanResult(path, a + b).IsSafe() <==> ScanResult(path, a).IsSafe() && ScanResult(path, b).IsSafe()
  {
    CountConcat(a, b, CRITICAL);
    CountConcat(a, b, HIGH);
  }
}
