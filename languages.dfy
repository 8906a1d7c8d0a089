/** The per-language configuration tables of lib/code-analyzer.ts and their
    lookups, with the fallbacks each lookup applies to an unknown tag. */
module Languages {

  datatype Option<T> = None | Some(value: T)

  /** A block-comment delimiter pair. */
  datatype BlockDelimiter = BlockDelimiter(start: string, end: string)

  /** The comment syntax of a language: single-line prefixes and block delimiters. */
  datatype CommentPatterns = CommentPatterns(single: seq<string>, multi: seq<BlockDelimiter>)

  const CStyleComments := CommentPatterns(["//"], [BlockDelimiter("/*", "*/")])

  /** Comment syntax per language (lib/code-analyzer.ts:53-69); `None` for a
      tag the table does not list. */
  function CommentEntry(language: string): Option<CommentPatterns>
  {
    match language
    case "java" => Some(CStyleComments)
    case "javascript" => Some(CStyleComments)
    case "typescript" => Some(CStyleComments)
    case "c" => Some(CStyleComments)
    case "cpp" => Some(CStyleComments)
    case "csharp" => Some(CStyleComments)
    case "python" => Some(CommentPatterns(["#"], [BlockDelimiter("\"\"\"", "\"\"\""), BlockDelimiter("'''", "'''")]))
    case "go" => Some(CStyleComments)
    case "rust" => Some(CStyleComments)
    case _ => None
  }

  /** Complexity tokens per language (lib/code-analyzer.ts:104-114); each is a
      regular-expression fragment, so `\|\|` stands for `||`; `None` for a tag the table
      does not list. */
  function KeywordEntry(language: string): Option<seq<string>>
  {
    match language
    case "java" => Some(["if", "else", "while", "for", "do", "switch", "case", "catch", "finally", "&&", @"\|\|", @"\?"])
    case "javascript" => Some(["if", "else", "while", "for", "do", "switch", "case", "catch", "finally", "&&", @"\|\|", @"\?"])
    case "typescript" => Some(["if", "else", "while", "for", "do", "switch", "case", "catch", "finally", "&&", @"\|\|", @"\?"])
    case "python" => Some(["if", "elif", "else", "while", "for", "try", "except", "finally", "and", "or"])
    case "c" => Some(["if", "else", "while", "for", "do", "switch", "case", "&&", @"\|\|", @"\?"])
    case "cpp" => Some(["if", "else", "while", "for", "do", "switch", "case", "catch", "&&", @"\|\|", @"\?"])
    case "csharp" => Some(["if", "else", "while", "for", "do", "switch", "case", "catch", "finally", "&&", @"\|\|", @"\?"])
    case "go" => Some(["if", "else", "for", "switch", "case", "select", "&&", @"\|\|"])
    case "rust" => Some(["if", "else", "while", "for", "loop", "match", "&&", @"\|\|"])
    case _ => None
  }

  /** Function-signature patterns per language (lib/code-analyzer.ts:176-199).
      `$$` is written where escaped parentheses were evidently meant; under the
      "gm" flags it asserts an end of line, and the model does not interpret it.
      `None` for a tag the table does not list. */
  function FunctionPatternEntry(language: string): Option<seq<string>>
  {
    match language
    case "csharp" => Some([
      @"(?:public|private|protected|internal|static)?\s*(?:virtual|override|abstract)?\s*\w+\s+(\w+)\s*$$[^)]*$$\s*\{",
      @"(?:public|private|protected|internal)?\s*(?:static)?\s*(?:async)?\s*\w+\s+(\w+)\s*$$[^)]*$$",
      @"(?:public|private|protected|internal)?\s*(?:static)?\s*void\s+(\w+)\s*$$[^)]*$$"
    ])
    case "java" => Some([
      @"(?:public|private|protected|static)?\s*\w+\s+(\w+)\s*$$[^)]*$$\s*\{",
      @"(?:public|private|protected|static)?\s*(?:static)?\s*\w+\s+(\w+)\s*$$[^)]*$$"
    ])
    case "javascript" => Some([
      @"function\s+(\w+)\s*$$[^)]*$$",
      @"(?:const|let|var)\s+(\w+)\s*=\s*(?:function|$$[^)]*$$\s*=>)",
      @"(\w+)\s*:\s*function\s*$$[^)]*$$"
    ])
    case "typescript" => Some([
      @"function\s+(\w+)\s*$$[^)]*$$",
      @"(?:const|let|var)\s+(\w+)\s*=\s*(?:function|$$[^)]*$$\s*=>)",
      @"(\w+)\s*$$[^)]*$$\s*:\s*\w+\s*\{"
    ])
    case "python" => Some([
      @"def\s+(\w+)\s*$$[^)]*$$\s*:",
      @"async\s+def\s+(\w+)\s*$$[^)]*$$\s*:"
    ])
    case "c" => Some([
      @"\w+\s+(\w+)\s*$$[^)]*$$\s*\{",
      @"static\s+\w+\s+(\w+)\s*$$[^)]*$$\s*\{"
    ])
    case "cpp" => Some([
      @"\w+\s+(\w+)\s*$$[^)]*$$\s*\{",
      @"(?:virtual|static|inline)?\s*\w+\s+(\w+)\s*$$[^)]*$$\s*\{"
    ])
    case _ => None
  }

  /** Class-signature patterns per language (lib/code-analyzer.ts:257-269);
      go, rust and every tag not listed have none. */
  function ClassPatternEntry(language: string): Option<seq<string>>
  {
    match language
    case "csharp" => Some([
      @"(?:public|private|protected|internal)?\s*(?:static|abstract|sealed)?\s*class\s+(\w+)",
      @"(?:public|private|protected|internal)?\s*(?:static)?\s*struct\s+(\w+)",
      @"(?:public|private|protected|internal)?\s*interface\s+(\w+)"
    ])
    case "java" => Some([
      @"(?:public|private|protected)?\s*class\s+(\w+)"
    ])
    case "javascript" => Some([
      @"class\s+(\w+)"
    ])
    case "typescript" => Some([
      @"(?:export\s+)?class\s+(\w+)"
    ])
    case "python" => Some([
      @"class\s+(\w+)\s*(?:$$[^)]*$$)?\s*:"
    ])
    case "c" => Some([
      @"(?:typedef\s+)?struct\s+(\w+)"
    ])
    case "cpp" => Some([
      @"(?:class|struct)\s+(\w+)"
    ])
    case _ => None
  }

  /** The language tags the comment and keyword tables know. */
  const KnownLanguages: set<string> := {"java", "javascript", "typescript", "python", "c", "cpp", "csharp", "go", "rust"}

  /** `patterns[language] || patterns.javascript` (lib/code-analyzer.ts:71). */
  function GetCommentPatterns(language: string): CommentPatterns
  {
    match CommentEntry(language)
    case Some(p) => p
    case None => CommentEntry("javascript").value
  }

  /** `keywords[language] || keywords.javascript` (lib/code-analyzer.ts:116). */
  function GetComplexityKeywords(language: string): seq<string>
  {
    match KeywordEntry(language)
    case Some(k) => k
    case None => KeywordEntry("javascript").value
  }

  /** `patterns[language] || patterns.javascript` (lib/code-analyzer.ts:201). */
  function GetFunctionPatterns(language: string): seq<string>
  {
    match FunctionPatternEntry(language)
    case Some(p) => p
    case None => FunctionPatternEntry("javascript").value
  }

  /** `patterns[language] || []` (lib/code-analyzer.ts:271): no javascript fallback here. */
  function GetClassPatterns(language: string): seq<string>
  {
    match ClassPatternEntry(language)
    case Some(p) => p
    case None => []
  }

  /** A tag outside the tables behaves like "javascript" for comments, keywords
      and functions, but has no class patterns at all. */
  lemma UnknownLanguageFallsBack(language: string)
    requires language !in KnownLanguages
    ensures GetCommentPatterns(language) == GetCommentPatterns("javascript")
    ensures GetComplexityKeywords(language) == GetComplexityKeywords("javascript")
    ensures GetFunctionPatterns(language) == GetFunctionPatterns("javascript")
    ensures GetClassPatterns(language) == []
  {
  }

  /** Every tag except "python" uses the C-style comment syntax. */
  lemma CStyleCommentTags(language: string)
    ensures GetCommentPatterns(language) == CStyleComments <==> language != "python"
  {
  }

  /** go and rust have their own comment and keyword entries, borrow the
      javascript function patterns, and have no class patterns. */
  lemma GoAndRustProfiles(language: string)
    requires language == "go" || language == "rust"
    ensures GetFunctionPatterns(language) == GetFunctionPatterns("javascript")
    ensures GetClassPatterns(language) == []
    ensures GetComplexityKeywords(language) != GetComplexityKeywords("javascript")
  {
    assert |GetComplexityKeywords(language)| == 8 && |GetComplexityKeywords("javascript")| == 12;
  }
}
