/** The pure parts of the code-input panel (components/code-input.tsx):
    language detection from a file name, the default file name, and the
    empty-input guard of `handleAnalyze`. */
module CodeInput {
  import opened Text
  import opened Regex
  import opened Languages
  import opened Extraction
  import opened Maintainability
  import opened Analyzer

  /** `languageMap` of `detectLanguage`: the language tag of a (lower-case)
      extension, `None` for an extension the map does not list. */
  function LanguageOf(extension: string): Option<string>
  {
    match extension
    case "js" => Some("javascript")
    case "ts" => Some("typescript")
    case "jsx" => Some("javascript")
    case "tsx" => Some("typescript")
    case "py" => Some("python")
    case "java" => Some("java")
    case "cs" => Some("csharp")
    case "cpp" => Some("cpp")
    case "c" => Some("c")
    case "php" => Some("php")
    case "rb" => Some("ruby")
    case "go" => Some("go")
    case "rs" => Some("rust")
    case "kt" => Some("kotlin")
    case "swift" => Some("swift")
    case _ => None
  }

  /** Every tag `detectLanguage` can produce. */
  const DetectableLanguages := {"javascript", "typescript", "python", "java", "csharp", "cpp", "c",
                                "php", "ruby", "go", "rust", "kotlin", "swift"}

  /** `filename.split(".").pop()`: the text after the last dot, or the whole
      name when it has no dot. */
  function Extension(fileName: string): (ext: string)
    ensures '.' !in ext
    ensures |ext| <= |fileName| && ext == fileName[|fileName| - |ext|..]
  {
    var pieces := Split(fileName, '.');
    ExtensionIsSuffix(fileName);
    pieces[|pieces| - 1]
  }

  /** The last piece of a split is a suffix of the text. */
  lemma {:induction false} ExtensionIsSuffix(s: string)
    ensures var pieces := Split(s, '.');
      |pieces[|pieces| - 1]| <= |s| && pieces[|pieces| - 1] == s[|s| - |pieces[|pieces| - 1]|..]
  {
    if s != [] {
      ExtensionIsSuffix(s[1..]);
      var rest := Split(s[1..], '.');
      var last := rest[|rest| - 1];
      assert s[1..][|s| - 1 - |last|..] == s[|s| - |last|..];
      if s[0] != '.' && |rest| == 1 {
        JoinSplit(s[1..], '.');
        assert [s[0]] + rest[0] == s;
      }
    }
  }

  /** `detectLanguage`: look up the lower-cased extension; an unknown or
      empty extension means "javascript". */
  function DetectLanguage(fileName: string): (language: string)
    ensures language in DetectableLanguages
  {
    var extension := ToLower(Extension(fileName));
    match LanguageOf(extension)
    case Some(language) => language
    case None => "javascript"
  }

  /** A name without a dot is its own extension. */
  lemma NoDotWholeName(fileName: string)
    requires '.' !in fileName
    ensures Extension(fileName) == fileName
  {
    SplitPiece(fileName, "", '.');
  }

  /** The extension is exactly what follows the last dot. */
  lemma ExtensionAfterLastDot(base: string, ext: string)
    requires '.' !in ext
    ensures Extension(base + "." + ext) == ext
  {
    SplitAfterLastDot(base, ext);
  }

  lemma {:induction false} SplitAfterLastDot(base: string, ext: string)
    requires '.' !in ext
    ensures var pieces := Split(base + "." + ext, '.'); pieces[|pieces| - 1] == ext
  {
    var s := base + "." + ext;
    if base == [] {
      assert s == [] + ['.'] + ext;
      SplitPiece([], ext, '.');
      SplitPiece(ext, "", '.');
    } else {
      SplitAfterLastDot(base[1..], ext);
      assert s[1..] == base[1..] + "." + ext == base[1..] + ("." + ext);
      assert s[0] == base[0];
      var rest := Split(s[1..], '.');
      CountCharAppend(base[1..], "." + ext, '.');
      assert ("." + ext)[0] == '.' && ("." + ext)[1..] == ext;
      assert CountChar("." + ext, '.') >= 1;
      assert |rest| >= 2;
    }
  }

  /** Only the extension decides, in any letter case: `Main.JAVA` is Java. */
  lemma UpperCaseExtension(base: string)
    ensures DetectLanguage(base + ".JAVA") == "java"
  {
    assert base + ".JAVA" == base + "." + "JAVA";
    ExtensionAfterLastDot(base, "JAVA");
    var lower := ToLower("JAVA");
    assert lower[0] == 'j' && lower[1] == 'a' && lower[2] == 'v' && lower[3] == 'a';
    assert lower == "java";
  }

  /** Only the last dot counts: `a.test.ts`, like any name ending in `.ts`, is
      TypeScript. */
  lemma LastDotExtension(base: string)
    ensures DetectLanguage(base + ".ts") == "typescript"
  {
    assert base + ".ts" == base + "." + "ts";
    ExtensionAfterLastDot(base, "ts");
    var lower := ToLower("ts");
    assert lower[0] == 't' && lower[1] == 's';
    assert lower == "ts";
  }

  /** The Kelvin sign lower-cases to `k`, so `Main.\U{212A}t` is detected
      exactly like `Main.kt`: as Kotlin. */
  lemma KelvinSignExtension(base: string)
    ensures DetectLanguage(base + ".\U{212A}t") == DetectLanguage(base + ".kt") == "kotlin"
  {
    assert base + ".\U{212A}t" == base + "." + "\U{212A}t";
    assert base + ".kt" == base + "." + "kt";
    ExtensionAfterLastDot(base, "\U{212A}t");
    ExtensionAfterLastDot(base, "kt");
    KelvinSignLowersToK();
    assert "\U{212A}t" == "\U{212A}" + "t";
    assert ToLower("\U{212A}t") == ToLower("\U{212A}") + ToLower("t");
    assert ToLower("t") == "t" && ToLower("k") == "k";
    assert ToLower("kt") == "kt";
    assert ToLower(Extension(base + ".\U{212A}t")) == "kt";
    assert ToLower(Extension(base + ".kt")) == "kt";
  }

  /** A bare `go` is read as the extension "go". */
  lemma BareNameExtension()
    ensures DetectLanguage("go") == "go"
  {
    NoDotWholeName("go");
    var lower := ToLower("go");
    assert lower[0] == 'g' && lower[1] == 'o';
    assert lower == "go";
  }

  /** A name ending in a dot has the empty extension and counts as JavaScript. */
  lemma EmptyExtension(base: string)
    ensures DetectLanguage(base + ".") == "javascript"
  {
    ExtensionAfterLastDot(base, "");
    assert base + "." + "" == base + ".";
    assert ToLower("") == "";
  }

  /** Tags the engine has no tables for: they get the "javascript" comment,
      keyword and function profiles and no class patterns at all. */
  lemma DetectedTagsWithoutTables(fileName: string)
    ensures var language := DetectLanguage(fileName);
      language !in KnownLanguages ==>
        language in {"php", "ruby", "kotlin", "swift"}
        && GetCommentPatterns(language) == GetCommentPatterns("javascript")
        && GetComplexityKeywords(language) == GetComplexityKeywords("javascript")
        && GetFunctionPatterns(language) == GetFunctionPatterns("javascript")
        && GetClassPatterns(language) == []
  {
    var language := DetectLanguage(fileName);
    if language !in KnownLanguages {
      UnknownLanguageFallsBack(language);
    }
  }

  /** `fileName || `code.${language === "csharp" ? "cs" : "txt"}``. */
  function DefaultFileName(fileName: string, language: string): (name: string)
    ensures name != ""
    ensures fileName != "" ==> name == fileName
    ensures fileName == "" ==> name == (if language == "csharp" then "code.cs" else "code.txt")
  {
    if fileName != "" then fileName else "code." + (if language == "csharp" then "cs" else "txt")
  }

  /** `if (!code.trim()) return`: analysis runs only on text with a character
      that is not white space. */
  function ShouldAnalyze(code: string): (b: bool)
    ensures b <==> exists i :: 0 <= i < |code| && !IsWhiteSpace(code[i])
  {
    TrimEmpty(code);
    Trim(code) != ""
  }

  /** The report `handleAnalyze` hands on, if any. */
  function HandleAnalyze(m: Matcher, code: string, language: string, fileName: string,
                         random: RandomStream, ln: nat -> LogValue): (r: Option<AnalysisReport>)
    ensures r.Some? <==> ShouldAnalyze(code)
    ensures r.Some? ==> r.value == Analysis(m, code, language, DefaultFileName(fileName, language), random, ln)
    ensures r.Some? ==> r.value.fileName != "" && ValidReport(r.value)
  {
    if !ShouldAnalyze(code) then None
    else
      AnalysisIsValid(m, code, language, DefaultFileName(fileName, language), random, ln);
      Some(Analysis(m, code, language, DefaultFileName(fileName, language), random, ln))
  }
}
