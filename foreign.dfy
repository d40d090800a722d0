/**
 * The libraries the engine calls but does not implement: Python's `ast`
 * module, UTF-8 encoding and decoding, the tree-sitter JavaScript and bash
 * grammars, and the `re` engine. Each is a total, deterministic function
 * value; a library call that raises is an absent result.
 */
module Foreign {
  import opened Wrappers
  import opened PythonAst
  import opened SyntaxTree
  import opened Spans

  /** What `ast.parse(code)` does: returns a tree, raises SyntaxError, or raises something else. */
  datatype PyParseOutcome = ParsedModule(tree: PyNode) | SyntaxErrorRaised | OtherErrorRaised(exception: string)

  /**
   * `re.finditer` as match spans for a pattern, a text and whether IGNORECASE
   * is set: the engine reports in-bounds, ordered, non-overlapping matches.
   */
  type RegexEngine = f: (string, string, bool) -> seq<Span> | forall pattern, text, ignoreCase :: WellFormed(f(pattern, text, ignoreCase), text)
    witness (pattern: string, text: string, ignoreCase: bool) => []

  datatype Env = Env(
    /** `ast.parse` */
    pythonParse: string -> PyParseOutcome,
    /** `ast.get_source_segment(script, node)`; None when it returns None or raises */
    sourceSegment: (string, PyNode) -> Option<string>,
    /** `str.encode('utf-8')`; None when it raises */
    encode: string -> Option<Bytes>,
    /** `bytes.decode('utf-8', errors='ignore')` */
    decodeIgnore: Bytes -> string,
    /** `bytes.decode('utf-8')`; None when it raises */
    decodeStrict: Bytes -> Option<string>,
    /** tree-sitter `Parser.parse` with the JavaScript grammar; None when it raises */
    javascriptParse: Bytes -> Option<Tree>,
    /** tree-sitter `Parser.parse` with the bash grammar; None when it raises */
    bashParse: Bytes -> Option<Tree>,
    /** `re.finditer(pattern, text, flags)` */
    regex: RegexEngine)
}
