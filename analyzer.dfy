/** `analyzeCode` (lib/code-analyzer.ts:4-50): the line counts, the two
    complexity scores, the function and class listings, the maintainability
    index, the recommendations and the Big-O estimate of one source text,
    gathered into one report. */
module Analyzer {
  import opened Text
  import opened Regex
  import opened Languages
  import opened Lines
  import opened Complexity
  import opened Extraction
  import opened Maintainability
  import opened Recommendations
  import opened BigO

  /** The `ComplexityAnalysis` record (app/analyze/page.tsx:18-43). */
  datatype AnalysisReport = AnalysisReport(
    fileName: string,
    language: string,
    totalLines: nat,
    codeLines: nat,
    commentLines: nat,
    blankLines: nat,
    cyclomaticComplexity: int,
    cognitiveComplexity: int,
    functions: seq<FunctionRecord>,
    classes: seq<ClassRecord>,
    maintainabilityIndex: int,
    recommendations: seq<string>,
    bigOAnalysis: BigOAnalysis)

  /** `Math.random` is one stream shared by both extractors: the classes draw
      after the functions' draws, one per function-signature match. */
  function ClassStream(m: Matcher, code: string, language: string, random: RandomStream): RandomStream
  {
    var drawn := MatchCount(m, code, GetFunctionPatterns(language));
    (k: nat) => random(drawn + k)
  }

  /** What `analyzeCode` returns. */
  function Analysis(m: Matcher, code: string, language: string, fileName: string,
                    random: RandomStream, ln: nat -> LogValue): AnalysisReport
  {
    var lines := Split(code, '\n');
    var p := GetCommentPatterns(language);
    var codeLines := CountKind(lines, p, Code);
    var cc := Cyclomatic(m, code, language);
    var functions := Functions(m, code, language, random);
    AnalysisReport(
      fileName, language, |lines|, codeLines, CountKind(lines, p, Comment), CountKind(lines, p, Blank),
      cc, CognitiveComplexity(m, code, language), functions,
      Classes(m, code, language, ClassStream(m, code, language, random)),
      CalculateMaintainabilityIndex(codeLines, cc, ln),
      Recommendations.Recommendations(cc, codeLines, functions),
      AnalyzeBigO(m, code, functions))
  }

  /** The facts every report satisfies. */
  predicate ValidReport(r: AnalysisReport)
  {
    r.totalLines >= 1
    && r.totalLines == r.codeLines + r.commentLines + r.blankLines
    && 1 <= r.cyclomaticComplexity <= MaxComplexity
    && r.cognitiveComplexity == (13 * r.cyclomaticComplexity) / 10
    && 1 <= |r.functions| <= FunctionLimit
    && (forall k :: 0 <= k < |r.functions| ==> WellFormedFunction(r.functions[k]))
    && |r.classes| <= ClassLimit
    && (forall k :: 0 <= k < |r.classes| ==> WellFormedClass(r.classes[k]))
    && 0 <= r.maintainabilityIndex <= 100
    && 1 <= |r.recommendations| <= 5
    && ReportedTime(r.bigOAnalysis.timeComplexity)
    && ReportedSpace(r.bigOAnalysis.spaceComplexity)
    && ReportedConfidence(r.bigOAnalysis.confidence)
  }

  /** Every report is valid, carries the given name and tag, counts one line
      per newline plus one, and never advises shortening a function. */
  lemma AnalysisIsValid(m: Matcher, code: string, language: string, fileName: string,
                        random: RandomStream, ln: nat -> LogValue)
    ensures var r := Analysis(m, code, language, fileName, random, ln);
      ValidReport(r)
      && r.fileName == fileName && r.language == language
      && r.totalLines == CountChar(code, '\n') + 1
      && Message(ShortenFunctions) !in r.recommendations
  {
    var lines := Split(code, '\n');
    var functions := Functions(m, code, language, random);
    KindsPartition(lines, GetCommentPatterns(language));
    FunctionsWellFormed(m, code, language, random);
    ClassesBounded(m, code, language, ClassStream(m, code, language, random));
    AnalysisRange(m, code, functions);
    ExtractedFunctionsAdvice(Cyclomatic(m, code, language), CountKind(lines, GetCommentPatterns(language), Code), functions);
  }

  /** `analyzeCode`. */
  method AnalyzeCode(m: Matcher, code: string, language: string, fileName: string,
                     random: RandomStream, ln: nat -> LogValue)
    returns (report: AnalysisReport)
    ensures report == Analysis(m, code, language, fileName, random, ln)
  {
    var totalLines, codeLines, commentLines, blankLines := CountLines(code, language);
    var cyclomaticComplexity := CalculateCyclomaticComplexity(m, code, language);
    var cognitiveComplexity := CognitiveComplexity(m, code, language);
    var functions := ExtractFunctions(m, code, language, random);
    var classes := ExtractClasses(m, code, language, ClassStream(m, code, language, random));
    var maintainabilityIndex := CalculateMaintainabilityIndex(codeLines, cyclomaticComplexity, ln);
    var recommendations := GenerateRecommendations(cyclomaticComplexity, codeLines, functions);
    var bigOAnalysis := EstimateBigO(m, code, functions);
    report := AnalysisReport(
      fileName, language, totalLines, codeLines, commentLines, blankLines,
      cyclomaticComplexity, cognitiveComplexity, functions, classes,
      maintainabilityIndex, recommendations, bigOAnalysis);
  }

  /** Text with no code lines (blank or comments only) scores the full index
      of 100, whatever its complexity. */
  lemma NoCodeFullIndex(m: Matcher, code: string, language: string, fileName: string,
                        random: RandomStream, ln: nat -> LogValue)
    requires IsNaturalLog(ln)
    requires CountKind(Split(code, '\n'), GetCommentPatterns(language), Code) == 0
    ensures Analysis(m, code, language, fileName, random, ln).maintainabilityIndex == 100
  {
    NoCodeLinesGiveFullIndex(Cyclomatic(m, code, language), ln);
  }

  /** The empty text: one blank line, no code, full maintainability. */
  lemma EmptyCodeReport(m: Matcher, language: string, fileName: string,
                        random: RandomStream, ln: nat -> LogValue)
    requires IsNaturalLog(ln)
    ensures var r := Analysis(m, "", language, fileName, random, ln);
      r.totalLines == 1 && r.blankLines == 1 && r.codeLines == 0 && r.commentLines == 0
      && r.maintainabilityIndex == 100
  {
    EmptyTextIsOneBlankLine(language);
    NoCodeLinesGiveFullIndex(Cyclomatic(m, "", language), ln);
  }
}
