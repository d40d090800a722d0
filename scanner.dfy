/**
 * `SkillScanner`: picks the analyzers for its analysis mode and runs every
 * analyzer over every script of a skill, collecting the issues script by
 * script and, within a script, analyzer by analyzer.
 */
module Scanner {
  import opened Wrappers
  import opened Types
  import opened Foreign
  import opened SeqUtil
  import opened IssueLists
  import RegexAnalysis
  import AstAnalysis
  import SkillParsing

  /** The analyzers a scanner can hold. */
  datatype AnalyzerKind = RegexKind | AstKind {
    /** The name each analyzer reports. */
    function Name(): string {
      match this
      case RegexKind => "RegexAnalyzer"
      case AstKind => "ASTAnalyzer"
    }
  }

  /**
   * The analyzers of each mode: FAST runs the regex analyzer alone,
   * STANDARD and DEEP run the regex analyzer and then the syntax-tree one.
   */
  function ModeAnalyzers(mode: AnalysisMode): (r: seq<AnalyzerKind>)
    ensures |r| >= 1 && r[0] == RegexKind
    ensures AstKind in r <==> mode != FAST
  {
    match mode
    case FAST => [RegexKind]
    case STANDARD => [RegexKind, AstKind]
    case DEEP => [RegexKind, AstKind]
  }

  /** `_init_analyzers`: the list built by appending according to the mode. */
  method InitAnalyzers(mode: AnalysisMode) returns (analyzers: seq<AnalyzerKind>)
    ensures analyzers == ModeAnalyzers(mode)
  {
    analyzers := [];
    if mode == FAST {
      analyzers := analyzers + [RegexKind];
    } else if mode == STANDARD {
      analyzers := analyzers + [RegexKind];
      analyzers := analyzers + [AstKind];
    } else if mode == DEEP {
      analyzers := analyzers + [RegexKind];
      analyzers := analyzers + [AstKind];
    }
  }

  /** What one analyzer's `analyze` returns on a script. */
  function AnalyzerResult(a: AnalyzerKind, script: Script, env: Env): Result<seq<SecurityIssue>> {
    match a
    case RegexKind => Ok(RegexAnalysis.AnalyzeResult(script, env))
    case AstKind => AstAnalysis.AnalyzeResult(script, env)
  }

  function AnalyzerMapper(script: Script, env: Env): AnalyzerKind -> Result<seq<SecurityIssue>> {
    a => AnalyzerResult(a, script, env)
  }

  /** The issues of one script: each analyzer's in turn. */
  function ScriptIssues(analyzers: seq<AnalyzerKind>, script: Script, env: Env): Result<seq<SecurityIssue>> {
    Collect(AnalyzerMapper(script, env), analyzers)
  }

  function ScriptMapper(analyzers: seq<AnalyzerKind>, env: Env): Script -> Result<seq<SecurityIssue>> {
    script => ScriptIssues(analyzers, script, env)
  }

  /** The issues of all scripts, script by script; an exception from an analyzer ends the scan. */
  function ScanIssues(analyzers: seq<AnalyzerKind>, scripts: seq<Script>, env: Env): Result<seq<SecurityIssue>> {
    Collect(ScriptMapper(analyzers, env), scripts)
  }

  /** What `scan` returns for the scripts of the skill at `skillPath`. */
  function ScanWith(analyzers: seq<AnalyzerKind>, skillPath: string, scripts: seq<Script>, env: Env): (r: Result<ScanResult>)
    ensures r.Ok? ==> r.value.skillPath == skillPath
    ensures r.Ok? <==> ScanIssues(analyzers, scripts, env).Ok?
  {
    match ScanIssues(analyzers, scripts, env)
    case Raised(e) => Raised(e)
    case Ok(issues) => Ok(ScanResult(skillPath, issues))
  }

  /** What a scanner in `mode` returns. */
  function ScanInMode(mode: AnalysisMode, skillPath: string, scripts: seq<Script>, env: Env): Result<ScanResult> {
    ScanWith(ModeAnalyzers(mode), skillPath, scripts, env)
  }

  /** The scanner. It owns one analyzer of each kind; `analyzers` says which of them run. */
  class SkillScanner {
    const mode: AnalysisMode
    const analyzers: seq<AnalyzerKind>
    const regex: RegexAnalysis.RegexAnalyzer
    const ast: AstAnalysis.ASTAnalyzer

    /** The regex analyzer holds its four rules. */
    predicate Valid() {
      regex.Valid()
    }

    constructor (mode: AnalysisMode)
      ensures this.mode == mode && analyzers == ModeAnalyzers(mode)
      ensures Valid() && fresh(ast) && fresh(ast.shellRule) && fresh(ast.shellRule.parser)
    {
      this.mode := mode;
      var list := InitAnalyzers(mode);
      analyzers := list;
      regex := new RegexAnalysis.RegexAnalyzer();
      ast := new AstAnalysis.ASTAnalyzer();
    }

    /** `analyze` of one analyzer. */
    method RunAnalyzer(a: AnalyzerKind, script: Script, env: Env) returns (r: Result<seq<SecurityIssue>>)
      requires Valid()
      modifies ast.shellRule.parser
      ensures r == AnalyzerResult(a, script, env)
    {
      if a == RegexKind {
        var issues := regex.Analyze(script, env);
        r := Ok(issues);
      } else {
        r := ast.Analyze(script, env);
      }
    }

    /** The inner loop of `scan`: every analyzer on one script, appended to `all`. */
    method ScanScript(all: seq<SecurityIssue>, script: Script, env: Env) returns (r: Result<seq<SecurityIssue>>)
      requires Valid()
      modifies ast.shellRule.parser
      ensures r == Then(Ok(all), ScriptIssues(analyzers, script, env))
    {
      var f := AnalyzerMapper(script, env);
      var issues := all;
      assert analyzers[..0] == [] && all + [] == all;
      for j := 0 to |analyzers|
        invariant Then(Ok(all), Collect(f, analyzers[..j])) == Ok(issues)
      {
        var found := RunAnalyzer(analyzers[j], script, env);
        CollectStep(f, analyzers, j);
        ThenAssociative(Ok(all), Collect(f, analyzers[..j]), found);
        if found.Raised? {
          CollectRaisedPrefix(f, analyzers, j + 1);
          return found;
        }
        issues := issues + found.value;
      }
      assert analyzers[..|analyzers|] == analyzers;
      r := Ok(issues);
    }

    /** The loop of `scan`: the issues of every script, in order, under the skill's path. */
    method ScanScripts(skillPath: string, scripts: seq<Script>, env: Env) returns (r: Result<ScanResult>)
      requires Valid()
      modifies ast.shellRule.parser
      ensures r == ScanWith(analyzers, skillPath, scripts, env)
    {
      var g := ScriptMapper(analyzers, env);
      var all: seq<SecurityIssue> := [];
      for i := 0 to |scripts|
        invariant Collect(g, scripts[..i]) == Ok(all)
      {
        var next := ScanScript(all, scripts[i], env);
        CollectStep(g, scripts, i);
        if next.Raised? {
          CollectRaisedPrefix(g, scripts, i + 1);
          return Raised(next.exception);
        }
        all := next.value;
      }
      assert scripts[..|scripts|] == scripts;
      r := Ok(ScanResult(skillPath, all));
    }

    /**
     * `scan`: parse the skill's document blocks and script files with a new
     * parser, then scan the scripts it collected.
     */
    method Scan(skillPath: string, blocks: seq<SkillParsing.CodeBlock>, files: seq<SkillParsing.DirectoryEntry>, env: Env)
      returns (r: Result<ScanResult>)
      requires Valid()
      modifies ast.shellRule.parser
      ensures r == ScanWith(analyzers, skillPath, SkillParsing.SkillScripts(blocks, files), env)
    {
      var parser := new SkillParsing.SkillParser(skillPath);
      var parsed := parser.Parse(blocks, files);
      assert [] + SkillParsing.BlockEntries(blocks) == SkillParsing.BlockEntries(blocks);
      var scripts := parser.GetAllScriptsWithMetadata();
      r := ScanScripts(skillPath, scripts, env);
    }
  }

  /** DEEP selects the same analyzers as STANDARD, so the two give identical results. */
  lemma DeepIsStandard(skillPath: string, scripts: seq<Script>, env: Env)
    ensures ScanInMode(DEEP, skillPath, scripts, env) == ScanInMode(STANDARD, skillPath, scripts, env)
  {
    assert ModeAnalyzers(DEEP) == ModeAnalyzers(STANDARD);
  }

  /** The regex analyzer never raises, so a FAST scan always completes. */
  lemma {:induction false} FastNeverRaises(skillPath: string, scripts: seq<Script>, env: Env)
    ensures ScanInMode(FAST, skillPath, scripts, env).Ok?
    decreases |scripts|
  {
    var g := ScriptMapper([RegexKind], env);
    if scripts != [] {
      var n := |scripts| - 1;
      FastNeverRaises(skillPath, scripts[..n], env);
      CollectOne(AnalyzerMapper(scripts[n], env), RegexKind);
    }
  }

  /** On one script, the FAST issues are the regex issues, which open the STANDARD issues. */
  lemma FastScriptIsPrefix(s: Script, env: Env)
    requires ScriptIssues(ModeAnalyzers(STANDARD), s, env).Ok?
    ensures ScriptIssues(ModeAnalyzers(FAST), s, env).Ok?
    ensures IsSubsequence(ScriptIssues(ModeAnalyzers(FAST), s, env).value,
                          ScriptIssues(ModeAnalyzers(STANDARD), s, env).value)
  {
    CollectPrefixOfPair(AnalyzerMapper(s, env), RegexKind, AstKind);
  }

  /**
   * Whenever the STANDARD scan completes, the FAST scan does too and its
   * issues are a subsequence of the STANDARD ones: per script, the regex
   * issues come first and the syntax-tree issues follow them.
   */
  lemma {:induction false} FastIsSubsequenceOfStandard(scripts: seq<Script>, env: Env)
    requires ScanIssues(ModeAnalyzers(STANDARD), scripts, env).Ok?
    ensures ScanIssues(ModeAnalyzers(FAST), scripts, env).Ok?
    ensures IsSubsequence(ScanIssues(ModeAnalyzers(FAST), scripts, env).value,
                          ScanIssues(ModeAnalyzers(STANDARD), scripts, env).value)
    decreases |scripts|
  {
    if scripts != [] {
      var n := |scripts| - 1;
      var s := scripts[n];
      FastIsSubsequenceOfStandard(scripts[..n], env);
      FastScriptIsPrefix(s, env);
      SubsequenceConcat(ScanIssues(ModeAnalyzers(FAST), scripts[..n], env).value,
                        ScanIssues(ModeAnalyzers(STANDARD), scripts[..n], env).value,
                        ScriptIssues(ModeAnalyzers(FAST), s, env).value,
                        ScriptIssues(ModeAnalyzers(STANDARD), s, env).value);
    }
  }

  /**
   * Scanning two script lists one after the other gives the issues of the
   * first followed by those of the second: nothing is dropped, reordered
   * or merged, so the severity counts add up.
   */
  lemma ScanIsAdditive(analyzers: seq<AnalyzerKind>, path: string, xs: seq<Script>, ys: seq<Script>, env: Env)
    requires ScanIssues(analyzers, xs + ys, env).Ok?
    ensures ScanIssues(analyzers, xs, env).Ok? && ScanIssues(analyzers, ys, env).Ok?
    ensures ScanIssues(analyzers, xs + ys, env).value ==
            ScanIssues(analyzers, xs, env).value + ScanIssues(analyzers, ys, env).value
    ensures ScanWith(analyzers, path, xs + ys, env).value.CriticalCount() ==
            ScanWith(analyzers, path, xs, env).value.CriticalCount() + ScanWith(analyzers, path, ys, env).value.CriticalCount()
    ensures ScanWith(analyzers, path, xs + ys, env).value.HighCount() ==
            ScanWith(analyzers, path, xs, env).value.HighCount() + ScanWith(analyzers, path, ys, env).value.HighCount()
  {
    CollectConcat(ScriptMapper(analyzers, env), xs, ys);
    CountsOfConcatenation(path, ScanIssues(analyzers, xs, env).value, ScanIssues(analyzers, ys, env).value);
  }

  /** A skill without scripts is safe. */
  lemma NoScriptsIsSafe(analyzers: seq<AnalyzerKind>, path: string, env: Env)
    ensures ScanWith(analyzers, path, [], env) == Ok(ScanResult(path, []))
    ensures ScanWith(analyzers, path, [], env).value.IsSafe()
  {
  }
}
