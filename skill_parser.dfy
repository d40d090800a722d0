/**
 * `SkillParser`: the bookkeeping side of reading a skill. Fenced code blocks
 * of the skill document and the files of its `scripts/` directory are
 * recorded twice, as bare contents and as (content, language, line offset)
 * entries, and the entries are turned into `Script`s for the analyzers.
 * Reading files and splitting the document are left to the caller: the
 * extractors receive the blocks and the directory listing already split.
 */
module SkillParsing {
  import opened Types
  import opened SeqUtil

  /** The fence languages the block pattern accepts. */
  const FenceLanguages: seq<string> := ["python", "javascript", "bash", "sh"]

  /** The file suffixes collected from `scripts/`. */
  const ScriptSuffixes: seq<string> := [".sh", ".bash", ".py", ".js"]

  /** A fenced block: the language after the opening fence and the code inside. */
  datatype CodeBlock = CodeBlock(language: string, code: string)

  /** One entry of the `scripts/` directory: its suffix, whether it is a regular file, and its text. */
  datatype DirectoryEntry = DirectoryEntry(suffix: string, isFile: bool, content: string)

  /** One recorded script: content, language tag and line offset. */
  datatype ScriptEntry = ScriptEntry(content: string, language: string, lineOffset: int)

  /** `bash` and `sh` blocks are shell; every other language is kept. */
  function NormalizeLanguage(language: string): (r: string)
    ensures language == "bash" || language == "sh" ==> r == "shell"
    ensures language != "bash" && language != "sh" ==> r == language
  {
    if language == "bash" || language == "sh" then "shell" else language
  }

  /** A fenced block's language is one of python, javascript and shell once normalised. */
  lemma FenceLanguagesNormalize(language: string)
    requires language in FenceLanguages
    ensures NormalizeLanguage(language) in ["python", "javascript", "shell"]
  {
  }

  /** `_detect_language_from_extension`: the extension table, `unknown` for anything else. */
  function DetectLanguageFromExtension(extension: string): (r: string)
    ensures r != "unknown" <==> extension in ScriptSuffixes
    ensures r in ["python", "javascript", "shell", "unknown"]
    ensures extension == ".py" ==> r == "python"
    ensures extension == ".js" ==> r == "javascript"
    ensures extension == ".sh" || extension == ".bash" ==> r == "shell"
  {
    if extension == ".py" then "python"
    else if extension == ".js" then "javascript"
    else if extension == ".sh" then "shell"
    else if extension == ".bash" then "shell"
    else "unknown"
  }

  /** The entries recorded for fenced blocks, in document order, all at offset 0. */
  function BlockEntries(blocks: seq<CodeBlock>): (r: seq<ScriptEntry>)
    ensures |r| == |blocks|
  {
    seq(|blocks|, i requires 0 <= i < |blocks| =>
      ScriptEntry(blocks[i].code, NormalizeLanguage(blocks[i].language), 0))
  }

  /** Whether a directory entry is collected. */
  predicate Collected(f: DirectoryEntry) {
    f.isFile && f.suffix in ScriptSuffixes
  }

  /** The entry recorded for one directory entry, if it is collected. */
  function FileEntry(f: DirectoryEntry): seq<ScriptEntry> {
    if Collected(f) then [ScriptEntry(f.content, DetectLanguageFromExtension(f.suffix), 0)] else []
  }

  /** The entries recorded for the directory, in listing order. */
  function FileEntries(files: seq<DirectoryEntry>): seq<ScriptEntry> {
    FlatMap(FileEntry, files)
  }

  /**
   * Exactly the regular files with a script suffix are recorded, each
   * under a known language and at offset 0.
   */
  lemma DirectoryEntriesAreKnown(files: seq<DirectoryEntry>, e: ScriptEntry)
    ensures e in FileEntries(files) <==>
            exists i :: 0 <= i < |files| && Collected(files[i]) &&
                        e == ScriptEntry(files[i].content, DetectLanguageFromExtension(files[i].suffix), 0)
    ensures e in FileEntries(files) ==> e.language in ["python", "javascript", "shell"] && e.lineOffset == 0
  {
    FlatMapMembership(FileEntry, files, e);
  }

  /** The `Script` built from a recorded entry. */
  function ToScript(e: ScriptEntry): (s: Script)
    ensures s.content == e.content && s.language == e.language && s.lineOffset == e.lineOffset
    ensures s.source == "markdown" <==> e.lineOffset == 0
  {
    Script(e.content, e.language, if e.lineOffset == 0 then "markdown" else "file", e.lineOffset)
  }

  /** The scripts of a list of entries, in order. */
  function ToScripts(entries: seq<ScriptEntry>): (r: seq<Script>)
    ensures |r| == |entries|
  {
    seq(|entries|, i requires 0 <= i < |entries| => ToScript(entries[i]))
  }

  /** Entries at offset 0, as every extractor records, become markdown scripts at offset 0 with their own content and language. */
  lemma ScriptsAreMarkdown(entries: seq<ScriptEntry>, i: nat)
    requires i < |entries| && entries[i].lineOffset == 0
    ensures ToScripts(entries)[i] == Script(entries[i].content, entries[i].language, "markdown", 0)
  {
    assert ToScripts(entries)[i] == ToScript(entries[i]);
  }

  /** The scripts a parse of `blocks` and `files` hands to the scanner: the fenced blocks first, then the script files. */
  function SkillScripts(blocks: seq<CodeBlock>, files: seq<DirectoryEntry>): (r: seq<Script>)
    ensures |r| == |blocks| + |FileEntries(files)|
  {
    ToScripts(BlockEntries(blocks) + FileEntries(files))
  }

  /**
   * Every script handed to the scanner sits at offset 0 and is therefore
   * labelled `markdown`, the files of `scripts/` included.
   */
  lemma EveryScriptIsMarkdown(blocks: seq<CodeBlock>, files: seq<DirectoryEntry>, i: nat)
    requires i < |SkillScripts(blocks, files)|
    ensures SkillScripts(blocks, files)[i].lineOffset == 0
    ensures SkillScripts(blocks, files)[i].source == "markdown"
  {
    var entries := BlockEntries(blocks) + FileEntries(files);
    if i >= |blocks| {
      var e := entries[i];
      assert e == FileEntries(files)[i - |blocks|];
      DirectoryEntriesAreKnown(files, e);
    }
    ScriptsAreMarkdown(entries, i);
  }

  /** The parser of one skill. */
  class SkillParser {
    const skillPath: string
    var scripts: seq<string>
    var scriptsWithMetadata: seq<ScriptEntry>

    /** The two lists grow in lock-step: same length, same contents, and every offset 0. */
    ghost predicate Valid()
      reads this
    {
      |scripts| == |scriptsWithMetadata| &&
      (forall i :: 0 <= i < |scripts| ==> scripts[i] == scriptsWithMetadata[i].content) &&
      (forall i :: 0 <= i < |scriptsWithMetadata| ==> scriptsWithMetadata[i].lineOffset == 0)
    }

    constructor (skillPath: string)
      ensures this.skillPath == skillPath && scripts == [] && scriptsWithMetadata == []
      ensures Valid()
    {
      this.skillPath := skillPath;
      scripts := [];
      scriptsWithMetadata := [];
    }

    /** `_extract_code_blocks`: record every fenced block, in order. */
    method ExtractCodeBlocks(blocks: seq<CodeBlock>)
      requires Valid()
      modifies this
      ensures Valid()
      ensures scriptsWithMetadata == old(scriptsWithMetadata) + BlockEntries(blocks)
      ensures scripts == old(scripts) + seq(|blocks|, i requires 0 <= i < |blocks| => blocks[i].code)
    {
      ghost var entries0 := scriptsWithMetadata;
      ghost var scripts0 := scripts;
      for k := 0 to |blocks|
        invariant scriptsWithMetadata == entries0 + BlockEntries(blocks[..k])
        invariant scripts == scripts0 + seq(k, i requires 0 <= i < k => blocks[i].code)
        invariant Valid()
      {
        var block := blocks[k];
        scripts := scripts + [block.code];
        var language := NormalizeLanguage(block.language);
        scriptsWithMetadata := scriptsWithMetadata + [ScriptEntry(block.code, language, 0)];
        assert BlockEntries(blocks[..k + 1]) == BlockEntries(blocks[..k]) + [ScriptEntry(block.code, language, 0)];
      }
      assert blocks[..|blocks|] == blocks;
    }

    /** `_extract_scripts_from_directory`: record every collected file, in listing order. */
    method ExtractScriptsFromDirectory(files: seq<DirectoryEntry>)
      requires Valid()
      modifies this
      ensures Valid()
      ensures scriptsWithMetadata == old(scriptsWithMetadata) + FileEntries(files)
      ensures |scripts| == |old(scripts)| + |FileEntries(files)|
    {
      ghost var entries0 := scriptsWithMetadata;
      for k := 0 to |files|
        invariant scriptsWithMetadata == entries0 + FileEntries(files[..k])
        invariant Valid()
      {
        var f := files[k];
        if f.isFile && f.suffix in ScriptSuffixes {
          scripts := scripts + [f.content];
          var language := DetectLanguageFromExtension(f.suffix);
          scriptsWithMetadata := scriptsWithMetadata + [ScriptEntry(f.content, language, 0)];
        }
        FlatMapSnoc(FileEntry, files, k);
        AppendAssociative(entries0, FileEntries(files[..k]), FileEntry(f));
      }
      assert files[..|files|] == files;
    }

    /** `get_all_scripts`: the recorded contents. */
    method GetAllScripts() returns (r: seq<string>)
      requires Valid()
      ensures |r| == |scriptsWithMetadata|
      ensures forall i :: 0 <= i < |r| ==> r[i] == scriptsWithMetadata[i].content
    {
      r := scripts;
    }

    /** `get_all_scripts_with_metadata`: one `Script` per recorded entry, in order. */
    method GetAllScriptsWithMetadata() returns (r: seq<Script>)
      ensures r == ToScripts(scriptsWithMetadata)
    {
      r := [];
      for k := 0 to |scriptsWithMetadata|
        invariant r == ToScripts(scriptsWithMetadata[..k])
      {
        var e := scriptsWithMetadata[k];
        r := r + [Script(e.content, e.language, if e.lineOffset == 0 then "markdown" else "file", e.lineOffset)];
        assert ToScripts(scriptsWithMetadata[..k + 1]) == ToScripts(scriptsWithMetadata[..k]) + [ToScript(e)];
      }
      assert scriptsWithMetadata[..|scriptsWithMetadata|] == scriptsWithMetadata;
    }

    /**
     * `parse`, after the document has been read and split: first the fenced
     * blocks, then the script files.
     */
    method Parse(blocks: seq<CodeBlock>, files: seq<DirectoryEntry>) returns (ok: bool)
      requires Valid()
      modifies this
      ensures Valid() && ok
      ensures scriptsWithMetadata == old(scriptsWithMetadata) + BlockEntries(blocks) + FileEntries(files)
    {
      ExtractCodeBlocks(blocks);
      ExtractScriptsFromDirectory(files);
      ok := true;
    }
  }
}
