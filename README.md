# Code complexity analyzer, modelled in Dafny

This project models the analysis engine of a web-based code complexity
analyzer (`lib/code-analyzer.ts`), together with the pure pieces of the three
React components that feed it and show its results:

- the language detection and the empty-input guard of the code-input panel;
- the level badges of the results view;
- the data series of the complexity charts.

`analyzeCode` takes a source text, a language tag and a file name, and
returns one report. The report holds:

- the line counts, namely total, code, comment and blank lines. Each line is
  judged on its own: blank after trimming, a comment when it starts with a
  marker of the language, code otherwise;
- a keyword-count cyclomatic complexity, capped at 50, and a cognitive
  complexity of 1.3 times that;
- up to ten functions and five classes found by signature patterns. Their
  sizes, and all class metrics, are drawn from `Math.random()`;
- a maintainability index, which is `100 - 2*cc - 5*ln(codeLines)` clamped to
  [0, 100] and rounded;
- up to five recommendations, or a fixed pair of messages when no rule fires;
- a Big-O estimate, taken from the first of eight patterns that matches and
  then adjusted when the code allocates collections.

The modules follow the source:

- `Text`: the JavaScript string operations used (`split`, `join`, `trim`,
  `startsWith`, `includes`, `toLowerCase` and number rendering);
- `Regex`: the regular-expression engine, as an abstract `Matcher`;
- `Languages`: the per-language tables and their fallbacks;
- `Lines`: line classification and counting;
- `Complexity`: keyword scoring;
- `Extraction`: functions and classes;
- `Maintainability`;
- `Recommendations`;
- `BigO`;
- `Analyzer`: `analyzeCode` itself;
- `CodeInput`, `ComplexityResults` and `ComplexityChart`: the three components.

Where the source changes state step by step, the model is imperative and each
method is proved equal to a specification function:

- the line-counting `forEach` (`Lines.TallyLines`);
- the keyword loop (`Complexity.ScoreKeywords`);
- the `regex.exec` push loops (`Extraction.PushPatternFunctions`,
  `Extraction.PushPatternClasses`);
- the conditional pushes of the recommendations;
- the `let` chain of `analyzeBigO` (`BigO.EstimateBigO`).

The properties are then proved about those functions.

Where the code and the prose description of the system disagree, the model
follows the code:

- The function-body slice is 10 to 29 lines, because `Math.floor(Math.random()
  * 20) + 10` never reaches 30.
- Lines are split on `"\n"` only. A `"\r"` left at the end of a line is white
  space, so `trim` removes it.

## Model

| member | source | states |
|---|---|---|
| `Text.Split` | lib/code-analyzer.ts:5 | `split("\n")` yields one more piece than there are separators, and no piece contains the separator |
| `Text.SplitJoin` | lib/code-analyzer.ts:211 | splitting a joined list of separator-free pieces gives the list back |
| `Text.JoinSplit` | lib/code-analyzer.ts:206-211 | joining the pieces of a split gives the text back |
| `Text.JoinedLinesArePrefix` | lib/code-analyzer.ts:207-211 | the first n lines of a text, joined again, are a prefix of the text |
| `Text.TrimStartFacts` | lib/code-analyzer.ts:16 | the trim of the front removes exactly a run of white space and stops at a character that is not white space |
| `Text.TrimEndFacts` | lib/code-analyzer.ts:16 | the same for the trimmed end |
| `Text.TrimEmpty` | lib/code-analyzer.ts:16-17 | a line trims to "" exactly when every character of it is white space |
| `Text.TrimBounds` | lib/code-analyzer.ts:16 | the trimmed line occurs in the line, and begins and ends with characters that are not white space |
| `Text.Contains` | lib/code-analyzer.ts:414-415 | `includes` holds exactly when the text occurs at some offset |
| `Text.ToLower` | components/code-input.tsx:26 | lower-casing keeps the length and maps every character independently |
| `Text.KelvinSignLowersToK` | components/code-input.tsx:26 | `toLowerCase` turns the Kelvin sign U+212A into the ASCII letter `k` |
| `Text.ParseNatToString` | lib/code-analyzer.ts:303 | the decimal rendering of the count reads back as the count |
| `Lines.IsComment` | lib/code-analyzer.ts:74-79 | defined as `isComment`, a single-line prefix or a block start delimiter starting the line; meaning fixed by `Lines.IsCommentMeaning` |
| `Lines.Classify` | lib/code-analyzer.ts:15-24 | defined as the body of the line `forEach`: trim, then blank, comment or code; meaning fixed by `Lines.ClassifyMeaning` |
| `Lines.AnyPrefixMeaning` | lib/code-analyzer.ts:76-77 | `some(startsWith)` holds exactly when one of the prefixes starts the line |
| `Lines.IsCommentMeaning` | lib/code-analyzer.ts:74-79 | a line is a comment exactly when a single-line prefix or a block start delimiter starts it |
| `Lines.ClassifyMeaning` | lib/code-analyzer.ts:15-24 | blank exactly when the line is all white space; comment exactly when the trimmed line is non-empty and starts with a marker |
| `Lines.Kinds` | lib/code-analyzer.ts:15-24 | one kind per line, in order, each the line's own classification |
| `Lines.OccurrencesStep` | lib/code-analyzer.ts:17-23 | classifying one more line adds one to the counter of its kind only |
| `Lines.OccurrencesPartition` | lib/code-analyzer.ts:9-24 | the three counters add up to the number of entries counted |
| `Lines.KindsPartition` | lib/code-analyzer.ts:5-24 | blank, comment and code lines partition the lines |
| `Lines.ClassifyLine` | lib/code-analyzer.ts:16-23 | trim, then blank, then comment, then code: the kind `Classify` specifies |
| `Lines.TallyLines` | lib/code-analyzer.ts:9-24 | the three counters after the loop are the numbers of code, comment and blank lines, and they sum to the number of lines |
| `Lines.CountLines` | lib/code-analyzer.ts:5-24 | total lines is newlines plus one, and it equals code plus comment plus blank lines under the language's comment syntax |
| `Lines.EmptyTextIsOneBlankLine` | lib/code-analyzer.ts:5-24 | the empty text is one blank line, with no code or comment lines |
| `Lines.BlockCommentTailIsCode` | lib/code-analyzer.ts:74-79 | the closing line of a block comment that does not start with a marker counts as code; there is no block state |
| `Lines.BlockCommentHeadIsComment` | lib/code-analyzer.ts:74-79 | the opening line of a block comment counts as a comment |
| `Languages.CommentEntry` | lib/code-analyzer.ts:52-70 | defined as the comment-syntax object literal, entry for entry; meaning fixed by `Languages.CStyleCommentTags` |
| `Languages.KeywordEntry` | lib/code-analyzer.ts:103-115 | defined as the keyword object literal, entry for entry; meaning fixed by `Languages.GoAndRustProfiles` |
| `Languages.FunctionPatternEntry` | lib/code-analyzer.ts:175-200 | defined as the function-pattern object literal, entry for entry; meaning fixed by `Languages.GoAndRustProfiles` |
| `Languages.ClassPatternEntry` | lib/code-analyzer.ts:256-270 | defined as the class-pattern object literal, entry for entry; meaning fixed by `Languages.GoAndRustProfiles` |
| `Languages.GetCommentPatterns` | lib/code-analyzer.ts:71 | defined as the table entry, or the javascript entry when there is none; meaning fixed by `Languages.UnknownLanguageFallsBack` and `Languages.CStyleCommentTags` |
| `Languages.GetComplexityKeywords` | lib/code-analyzer.ts:116 | defined as the table entry, or the javascript entry when there is none; meaning fixed by `Languages.UnknownLanguageFallsBack` and `Languages.GoAndRustProfiles` |
| `Languages.GetFunctionPatterns` | lib/code-analyzer.ts:201 | defined as the table entry, or the javascript entry when there is none; meaning fixed by `Languages.UnknownLanguageFallsBack` and `Languages.GoAndRustProfiles` |
| `Languages.GetClassPatterns` | lib/code-analyzer.ts:271 | defined as the table entry, or no patterns when there is none; meaning fixed by `Languages.UnknownLanguageFallsBack` and `Languages.GoAndRustProfiles` |
| `Languages.UnknownLanguageFallsBack` | lib/code-analyzer.ts:71 | an unknown tag gets the javascript comments, keywords and function patterns, and no class patterns (271) |
| `Languages.CStyleCommentTags` | lib/code-analyzer.ts:52-72 | every tag except python has the `//` and `/* */` comment syntax |
| `Languages.GoAndRustProfiles` | lib/code-analyzer.ts:103-117 | go and rust have their own keywords, borrow the javascript function patterns (201) and have no class patterns (271) |
| `Complexity.KeywordRegex` | lib/code-analyzer.ts:87 | each keyword is wrapped in `\b` on both sides, under the flag "g" |
| `Complexity.KeywordScore` | lib/code-analyzer.ts:84-94 | the score lies in [1, 50]; below the cap it is one plus the keyword matches; it is 50 exactly when there are at least 49 matches |
| `Complexity.Cyclomatic` | lib/code-analyzer.ts:81-95 | the score of the language's keywords, always in [1, 50]; monotone by `Complexity.CyclomaticMonotone` |
| `Complexity.ScoreKeywords` | lib/code-analyzer.ts:84-94 | the accumulating loop computes the capped score of the keyword list |
| `Complexity.CalculateCyclomaticComplexity` | lib/code-analyzer.ts:81-95 | the language's keywords are scored as `Cyclomatic` specifies, which lies in [1, 50] |
| `Complexity.KeywordMatchesMonotone` | lib/code-analyzer.ts:86-92 | more matches per keyword never lower the total of matches |
| `Complexity.CyclomaticMonotone` | lib/code-analyzer.ts:81-95 | more matches per keyword never lower the cyclomatic complexity |
| `Complexity.UnknownLanguageScoresLikeJavascript` | lib/code-analyzer.ts:116 | an unknown tag scores both complexities exactly like javascript |
| `Complexity.NoMatchesGiveBase` | lib/code-analyzer.ts:84-92 | with no keyword matches the count adds nothing to the base 1 |
| `Complexity.FloorOfScaled` | lib/code-analyzer.ts:100 | the floor of x times 1.3 is `13x / 10` rounded down |
| `Complexity.CognitiveComplexity` | lib/code-analyzer.ts:97-101 | the cognitive complexity is ⌊1.3·cc⌋, at least cc and at most 65 |
| `Extraction.RandomInt` | lib/code-analyzer.ts:240-242 | `Math.floor(Math.random() * n) + base` lies in [base, base + n) |
| `Extraction.SliceLength` | lib/code-analyzer.ts:210 | the random slice length lies between 10 and 29 |
| `Extraction.MatchName` | lib/code-analyzer.ts:145 | the name is group 1, else group 2, else "anonymous"; it is never empty |
| `Extraction.StartLine` | lib/code-analyzer.ts:146 | the start line is one plus the newlines before the match offset, clamped to the text |
| `Extraction.StartLineMonotone` | lib/code-analyzer.ts:146 | a later offset never gets an earlier start line |
| `Extraction.ExtractFunctionBody` | lib/code-analyzer.ts:204-212 | the body is a prefix of the text from the match, and its lines are exactly the first min(lines left, slice length) lines of that text |
| `Extraction.MakeFunction` | lib/code-analyzer.ts:145-159 | the pushed record has the match name and start line, and the body's line count and score; `endLine = startLine + lines - 1` |
| `Extraction.AnalyzeMatch` | lib/code-analyzer.ts:145-159 | the loop body computes exactly the record `MakeFunction` specifies |
| `Extraction.PatternFunctions` | lib/code-analyzer.ts:144-160 | one well-formed record per match of a pattern |
| `Extraction.PushPatternFunctions` | lib/code-analyzer.ts:141-160 | the `exec` loop appends the pattern's records, in match order, to the list, and draws one random value per match |
| `Extraction.DetectedFunctions` | lib/code-analyzer.ts:140-161 | one well-formed record per match over all patterns, in table order |
| `Extraction.DetectFunctions` | lib/code-analyzer.ts:137-161 | the `forEach` over the patterns builds exactly the detected records |
| `Extraction.Functions` | lib/code-analyzer.ts:119-173 | defined as the detections capped at 10, or the placeholders when there are none; meaning fixed by `Extraction.NoMatchesGivePlaceholders`, `Extraction.MatchesGiveDetections` and `Extraction.FunctionsWellFormed` |
| `Extraction.ExtractFunctions` | lib/code-analyzer.ts:119-173 | the result is the detections capped at 10, or the three placeholders when nothing matched; every record is well formed |
| `Extraction.NoMatchesGivePlaceholders` | lib/code-analyzer.ts:164-170 | with no signature match the result is exactly the three placeholders |
| `Extraction.MatchesGiveDetections` | lib/code-analyzer.ts:172 | otherwise it is the first min(10, matches) detections, in discovery order |
| `Extraction.FunctionsWellFormed` | lib/code-analyzer.ts:119-173 | between 1 and 10 functions, each well formed and at most 29 lines long |
| `Extraction.PatternFunctionsInOrder` | lib/code-analyzer.ts:144-160 | within one pattern, matches in offset order give records in start-line order |
| `Extraction.MakeClass` | lib/code-analyzer.ts:237-249 | the class is named by group 1, with complexity in 5-19, methods in 2-9 and lines in 20-119 |
| `Extraction.PatternClasses` | lib/code-analyzer.ts:236-250 | the k-th record of a pattern is built from the k-th match and random draws 3k to 3k+2 |
| `Extraction.PushPatternClasses` | lib/code-analyzer.ts:233-250 | the `exec` loop appends exactly the pattern's class records, in match order |
| `Extraction.DetectedClasses` | lib/code-analyzer.ts:232-251 | one well-formed class per match over all patterns |
| `Extraction.DetectClasses` | lib/code-analyzer.ts:230-251 | the `forEach` over the patterns builds exactly the detected classes |
| `Extraction.Classes` | lib/code-analyzer.ts:214-254 | defined as the detections capped at 5; meaning fixed by `Extraction.ClassesBounded` and `Extraction.NoClassPatternsNoClasses` |
| `Extraction.ExtractClasses` | lib/code-analyzer.ts:214-254 | the result is the detections capped at 5, all well formed |
| `Extraction.NoClassPatternsNoClasses` | lib/code-analyzer.ts:271 | a tag without a class table yields no classes |
| `Extraction.ClassesBounded` | lib/code-analyzer.ts:253 | exactly min(5, matches) classes, each with metrics in the random ranges |
| `Maintainability.Round` | lib/code-analyzer.ts:282 | `Math.round` gives the nearest integer, with halves rounded up |
| `Maintainability.Score` | lib/code-analyzer.ts:277-281 | the clamped score lies in [0, 100] |
| `Maintainability.CalculateMaintainabilityIndex` | lib/code-analyzer.ts:274-283 | the index is an integer in [0, 100], and 100 when the log is -Infinity |
| `Maintainability.IndexNonIncreasingInComplexity` | lib/code-analyzer.ts:278-281 | more complexity never raises the index |
| `Maintainability.IndexNonIncreasingInCodeLines` | lib/code-analyzer.ts:279-281 | more code lines never raise the index; at 0 lines it is already 100 |
| `Maintainability.NoCodeLinesGiveFullIndex` | lib/code-analyzer.ts:279-282 | no code lines gives index 100 |
| `Maintainability.OneCodeLineIndex` | lib/code-analyzer.ts:277-282 | one code line gives index 100 - 2·complexity |
| `Recommendations.HighComplexityFunctions` | lib/code-analyzer.ts:300 | the filter keeps exactly the functions of complexity above 10 |
| `Recommendations.HighComplexityFunctionsCount` | lib/code-analyzer.ts:300 | the filter keeps each record of complexity above 10 as many times as it occurs, and no other record |
| `Recommendations.When` | lib/code-analyzer.ts:288-309 | a conditional push contributes its advice exactly when its condition holds |
| `Recommendations.PushWhen` | lib/code-analyzer.ts:288-309 | one `if (...) push(...)` appends the rule's message exactly when its rule fires |
| `Recommendations.PushRules` | lib/code-analyzer.ts:286-309 | the five conditional pushes give the messages of the fired rules, in rule order |
| `Recommendations.Advise` | lib/code-analyzer.ts:285-317 | defined as the fired rules, or the fallback pair when none fires; meaning fixed by `Recommendations.RulesFireOnTheirConditions`, `Recommendations.FallbackWhenQuiet` and `Recommendations.AdviceShape` |
| `Recommendations.Recommendations` | lib/code-analyzer.ts:285-317 | defined as the messages of `Advise`; meaning fixed by `Recommendations.RecommendationsAreMessagesOfAdvice` and `Recommendations.MessageInjective` |
| `Recommendations.GenerateRecommendations` | lib/code-analyzer.ts:285-317 | the result is the messages of the advice given, with one to five entries |
| `Recommendations.MessagesOfFiredRules` | lib/code-analyzer.ts:288-309 | the messages of the fired rules are the concatenation of the messages of each rule |
| `Recommendations.HighComplexityMessageDistinct` | lib/code-analyzer.ts:303 | the counting message is different from every fixed message |
| `Recommendations.MessageInjective` | lib/code-analyzer.ts:288-314 | equal messages mean equal advice, including the count in the fourth rule |
| `Recommendations.RecommendationsAreMessagesOfAdvice` | lib/code-analyzer.ts:285-317 | a message is returned exactly when its advice is given |
| `Recommendations.FiredRule` | lib/code-analyzer.ts:288-309 | an advice is among the fired rules exactly when its condition holds |
| `Recommendations.RulesFireOnTheirConditions` | lib/code-analyzer.ts:288-309 | each rule's advice is given exactly when its threshold is exceeded; the fourth carries the number of functions above complexity 10 |
| `Recommendations.ReportedCount` | lib/code-analyzer.ts:300-305 | the count printed in the high-complexity message is the number of functions above complexity 10, and it is positive |
| `Recommendations.FallbackWhenQuiet` | lib/code-analyzer.ts:311-314 | the two fallback messages appear exactly when no rule fires, and then they are the whole list |
| `Recommendations.AdviceShape` | lib/code-analyzer.ts:285-317 | one to five entries; when the second rule fires, the first has fired before it |
| `Recommendations.ExtractedFunctionsAreNeverLong` | lib/code-analyzer.ts:307 | no well-formed extracted function is longer than 50 lines |
| `Recommendations.ExtractedFunctionsAdvice` | lib/code-analyzer.ts:307-309 | for extracted functions the long-function message is never given |
| `Recommendations.PlaceholdersRaiseNoComplexityAlarm` | lib/code-analyzer.ts:164-170 | no placeholder function has complexity above 10 |
| `BigO.FunctionNames` | lib/code-analyzer.ts:338 | the names of the functions, in order |
| `BigO.RecursionPattern` | lib/code-analyzer.ts:338 | defined as the `RegExp` built from the function names joined by "\|", under the flags "gi"; meaning fixed by `BigO.RecursionPatternNames` |
| `BigO.RecursionPatternNames` | lib/code-analyzer.ts:338 | the pattern is `\b(?:`, the names separated by "\|", then `)\s*\(`; when no name holds "\|", splitting the middle on "\|" gives the function names back, in order |
| `BigO.AdjustForCollections` | lib/code-analyzer.ts:413-421 | only constant space becomes linear, and gets the collections note, when the code allocates a collection; time and confidence never change |
| `BigO.PatternChain` | lib/code-analyzer.ts:352-410 | the if/else-if chain leaves the four variables at the outcome of the classified verdict |
| `BigO.EstimateBigO` | lib/code-analyzer.ts:326-429 | the method returns the analysis `AnalyzeBigO` specifies |
| `BigO.Classify` | lib/code-analyzer.ts:367-410 | defined as the first of the eight guards that holds; meaning fixed by `BigO.ClassifyIsFirstGuard` and `BigO.SomeGuardHolds` |
| `BigO.AnalyzeBigO` | lib/code-analyzer.ts:326-429 | defined as the outcome of the verdict, adjusted for collections; meaning fixed by `BigO.AnalysisRange`, `BigO.CollectionsNeverConstantSpace` and `BigO.ConstantSpaceVerdicts` |
| `BigO.ClassifyIsFirstGuard` | lib/code-analyzer.ts:367-410 | the verdict is the first in priority order whose condition holds, in both directions |
| `BigO.SomeGuardHolds` | lib/code-analyzer.ts:367-410 | the condition of the chosen verdict holds |
| `BigO.OutcomeRange` | lib/code-analyzer.ts:367-410 | every branch sets one of the seven time classes, one of the three space classes and one of the seven confidences |
| `BigO.AnalysisRange` | lib/code-analyzer.ts:326-429 | the reported classes and confidence come from those fixed lists |
| `BigO.CollectionsNeverConstantSpace` | lib/code-analyzer.ts:413-421 | code that allocates a collection is never rated constant space |
| `BigO.ConstantSpaceVerdicts` | lib/code-analyzer.ts:367-410 | without collections, space is constant exactly for the nested loops, binary search, single loop and default verdicts |
| `BigO.NothingFoundIsConstant` | lib/code-analyzer.ts:352-355 | with no pattern found, the code is rated O(1) time at confidence 85, and O(1) space unless it allocates collections |
| `BigO.TripleNestingWins` | lib/code-analyzer.ts:367-371 | triple nesting overrides every other finding: O(n³) at confidence 90 |
| `Analyzer.Analysis` | lib/code-analyzer.ts:4-50 | defined as the report assembled from the parts; meaning fixed by `Analyzer.AnalysisIsValid` and `Analyzer.EmptyCodeReport` |
| `Analyzer.AnalyzeCode` | lib/code-analyzer.ts:4-50 | the method builds exactly the report `Analysis` specifies |
| `Analyzer.AnalysisIsValid` | lib/code-analyzer.ts:4-50 | every report is valid: the lines partition, the complexities lie in their bounds, there are 1-10 functions and at most 5 classes, all well formed, the index is in [0, 100], there are 1-5 recommendations, the Big-O classes are known ones, and the long-function advice never appears |
| `Analyzer.NoCodeFullIndex` | lib/code-analyzer.ts:31 | a text with no code lines has maintainability 100 |
| `Analyzer.EmptyCodeReport` | lib/code-analyzer.ts:4-50 | the empty text is one blank line, with no code and maintainability 100 |
| `CodeInput.LanguageOf` | components/code-input.tsx:27-43 | defined as `languageMap`, entry for entry, with the fifteen extensions; meaning fixed by `CodeInput.DetectLanguage` and the extension lemmas below |
| `CodeInput.Extension` | components/code-input.tsx:26 | the extension is a dot-free suffix of the file name |
| `CodeInput.ExtensionIsSuffix` | components/code-input.tsx:26 | the last piece of a split on "." is a suffix of the name |
| `CodeInput.NoDotWholeName` | components/code-input.tsx:26 | a name without a dot is its own extension |
| `CodeInput.ExtensionAfterLastDot` | components/code-input.tsx:26 | the extension is exactly what follows the last dot |
| `CodeInput.DetectLanguage` | components/code-input.tsx:25-45 | the detected tag is always one of the thirteen tags in the map |
| `CodeInput.UpperCaseExtension` | components/code-input.tsx:26-44 | the extension's letter case does not matter: any name ending in `.JAVA` is java |
| `CodeInput.KelvinSignExtension` | components/code-input.tsx:26-44 | a name ending in `.\u212At` is detected exactly like one ending in `.kt`: as kotlin |
| `CodeInput.LastDotExtension` | components/code-input.tsx:26-44 | only the last dot counts: any name ending in `.ts` is typescript |
| `CodeInput.BareNameExtension` | components/code-input.tsx:26-44 | the bare name `go` is read as the extension go |
| `CodeInput.EmptyExtension` | components/code-input.tsx:44 | a name ending in a dot falls back to javascript |
| `CodeInput.DetectedTagsWithoutTables` | components/code-input.tsx:25-45 | php, ruby, kotlin and swift reach the engine without tables of their own, so they get the javascript profile and no class patterns |
| `CodeInput.DefaultFileName` | components/code-input.tsx:71 | the file name passed on is the given one, or `code.cs` for csharp and `code.txt` otherwise |
| `CodeInput.ShouldAnalyze` | components/code-input.tsx:62 | analysis runs exactly when the code has a character that is not white space |
| `CodeInput.HandleAnalyze` | components/code-input.tsx:61-79 | a report is produced exactly when the code is not blank; it is the engine's report under the default file name, and it is valid |
| `ComplexityResults.GetComplexityLevel` | components/complexity-results.tsx:17-23 | defined as the four-way threshold chain with its colours; meaning fixed by `ComplexityResults.ComplexityLevelThresholds` and `ComplexityResults.ComplexityLevelMonotone` |
| `ComplexityResults.GetMaintainabilityLevel` | components/complexity-results.tsx:25-30 | defined as the four-way threshold chain with its icons; meaning fixed by `ComplexityResults.MaintainabilityLevelThresholds` |
| `ComplexityResults.GetBigOComplexityLevel` | components/complexity-results.tsx:32-46 | defined as the eight-way comparison chain; meaning fixed by `ComplexityResults.BigOLevelTable` and `ComplexityResults.BigOLevelsDistinct` |
| `ComplexityResults.ComplexityRank` | components/complexity-results.tsx:17-23 | the position of each level in the list Low, Moderate, High, Very High |
| `ComplexityResults.ComplexityLevelThresholds` | components/complexity-results.tsx:17-23 | Low up to 5, Moderate 6-10, High 11-20, Very High above 20, in both directions |
| `ComplexityResults.ComplexityLevelMonotone` | components/complexity-results.tsx:17-23 | a larger complexity never gets a better level |
| `ComplexityResults.MaintainabilityLevelThresholds` | components/complexity-results.tsx:25-30 | Excellent from 80, Good 60-79, Fair 40-59, Poor below 40, and the check icon exactly from 60 on |
| `ComplexityResults.BigOLevelTable` | components/complexity-results.tsx:32-46 | the i-th Big-O class gets the i-th level, and any other string gets "Unknown" |
| `ComplexityResults.BigOLevelsDistinct` | components/complexity-results.tsx:32-46 | the seven levels are pairwise different, and none is "Unknown" |
| `ComplexityResults.EngineClassesHaveLevels` | components/complexity-results.tsx:50-51 | every time and space class the engine reports has a known level |
| `ComplexityChart.TruncateName` | components/complexity-chart.tsx:28 | names of up to 12 characters are kept; longer ones become their first 12 characters plus "..." |
| `ComplexityChart.TruncateIdempotent` | components/complexity-chart.tsx:28 | shortening a label twice is shortening it once |
| `ComplexityChart.FunctionData` | components/complexity-chart.tsx:27-31 | one bar per function, in order, with the shortened name, the complexity and the lines |
| `ComplexityChart.BarLabels` | components/complexity-chart.tsx:28 | every bar label is at most 15 characters, equal to a short name, and starts with the first 12 characters of a long one |
| `ComplexityChart.ScatterData` | components/complexity-chart.tsx:58-62 | one point per function, in order, with the name, the lines and the complexity |
| `ComplexityChart.BarsMatchScatter` | components/complexity-chart.tsx:27-62 | bars and points describe the same functions in the same order; only the bar labels are shortened |
| `ComplexityChart.BucketCount` | components/complexity-chart.tsx:37-52 | a bucket never counts more functions than there are |
| `ComplexityChart.AllSlices` | components/complexity-chart.tsx:34-54 | the four slices, in order, with their names, counts and colours |
| `ComplexityChart.ComplexityDistribution` | components/complexity-chart.tsx:34-55 | defined as the four slices with the empty ones removed; meaning fixed by `ComplexityChart.AllSlices`, `ComplexityChart.DistributionDropsEmptyBuckets` and `ComplexityChart.DistributionCoversAllFunctions` |
| `ComplexityChart.KeepNonEmpty` | components/complexity-chart.tsx:55 | the filter never lengthens the list |
| `ComplexityChart.KeepNonEmptyMembers` | components/complexity-chart.tsx:55 | the filter keeps exactly the slices with a positive value |
| `ComplexityChart.KeepNonEmptyAppend` | components/complexity-chart.tsx:55 | the filter keeps order: filtering a concatenation filters each part |
| `ComplexityChart.OneBucketEach` | components/complexity-chart.tsx:37-52 | every complexity falls in exactly one bucket |
| `ComplexityChart.BucketsPartition` | components/complexity-chart.tsx:37-52 | the four bucket counts add up to the number of functions |
| `ComplexityChart.DistributionDropsEmptyBuckets` | components/complexity-chart.tsx:34-55 | the distribution is Low, Moderate, High, Very High in this order, each present exactly when its bucket is not empty |
| `ComplexityChart.SumValuesKeepNonEmpty` | components/complexity-chart.tsx:55 | dropping the empty slices keeps the total |
| `ComplexityChart.DistributionCoversAllFunctions` | components/complexity-chart.tsx:34-55 | the slices of the pie add up to the number of functions |
| `ComplexityChart.BucketsAreComplexityLevels` | components/complexity-chart.tsx:37-52 | bucket b holds exactly the complexities whose badge is the b-th complexity level of the results view |

## Left out

- Regular expressions are not interpreted. `Regex.Matcher` stands for the
  engine. It gives the number of matches of `String.match` and the results of
  repeated `exec` as parameters, so every property holds for every engine.
  Two effects of this:
  - The `$$` in the function and class patterns is kept as written, and what
    it matches is not modelled.
  - The zero-length-match behaviour of `exec` is left to the engine.
- `Math.random()` is a parameter: a stream of reals in [0, 1), indexed by
  call number. The classes draw after the functions, one draw per
  function-signature match (`Analyzer.ClassStream`).
- `Math.log` is a parameter. The model demands of it (`IsNaturalLog`) only
  the facts the properties need.
- Floating point is exact real arithmetic:
  - `Math.round`, `Math.min` and `Math.max` act on exact reals.
  - The constant 1.3 of the cognitive complexity is exact. For
    cyclomatic scores from 1 to 50 it gives the same floors as the
    double-precision product.
- String offsets count characters, not UTF-16 code units.
- `toLowerCase` is modelled for the characters whose lower case is an ASCII
  letter: the ASCII capitals and the Kelvin sign U+212A, which becomes `k`.
  Every other character is kept. For any other character that is not ASCII,
  the real lower case still holds a character that is not ASCII, so an extension containing it matches no
  key of the map either way, because the keys are all ASCII. This covers
  U+0130, whose lower case is the two characters `i` and U+0307.
- Look-ups on JavaScript objects are modelled as plain tables. Prototype keys
  such as `"constructor"`, which would return an inherited member, are not
  modelled.
- The keyword list is looked up once per call and then passed to the loop
  methods. The source looks the list up inside each call; both give the
  same list.
- The `hashAccess` pattern of `analyzeBigO` is declared and never matched in
  the source; it is kept as a constant only.
- `analyzeBigO`'s `language` parameter is unused in the source and is
  omitted.
- Everything the components do beyond the pure values is outside the model:
  - `handleFileUpload`, with its FileReader and React state updates;
  - `handleClear`;
  - the `setTimeout` delay and the `onAnalysis`/`onAnalyzing` callbacks of
    `handleAnalyze`;
  - the error logging;
  - all JSX rendering.
- `components/big-o-chart.tsx`, `components/function-table.tsx`,
  `components/navigation.tsx` and the two pages are not part of this model.
  The report record follows `app/analyze/page.tsx:18-43`.
