/** The entity extractor of lib/code-analyzer.ts: `extractFunctions` (119-173),
    `extractFunctionBody` (204-212) and `extractClasses` (214-254). Each
    signature pattern is searched for all its matches; every match becomes a
    record, and the list is capped. `Math.random()` is a stream of values in
    [0, 1), so every property below holds for every sequence of draws. */
module Extraction {
  import opened Text
  import opened Regex
  import opened Languages
  import opened Complexity

  datatype FunctionRecord = FunctionRecord(name: string, complexity: int, lines: int, startLine: int, endLine: int)

  datatype ClassRecord = ClassRecord(name: string, complexity: int, methods: int, lines: int)

  /** A value `Math.random()` can return. */
  type Unit = r: real | 0.0 <= r < 1.0

  /** The values successive calls of `Math.random()` return, by call number. */
  type RandomStream = nat -> Unit

  /** At most this many functions are reported. */
  const FunctionLimit := 10

  /** At most this many classes are reported. */
  const ClassLimit := 5

  /** `Math.floor(Math.random() * n) + base`. */
  function RandomInt(r: Unit, n: nat, base: int): (x: int)
    requires n >= 1
    ensures base <= x < base + n
  {
    var y := r * n as real;
    ScaledBelow(r, n);
    y.Floor + base
  }

  /** A draw scaled by `n` stays in [0, n). */
  lemma {:induction false} ScaledBelow(r: Unit, n: nat)
    ensures 0.0 <= r * n as real
    ensures n >= 1 ==> r * n as real < n as real
  {
    if n >= 1 {
      ScaledBelow(r, n - 1);
      assert r * n as real == r * (n - 1) as real + r;
    }
  }

  /** The number of lines `extractFunctionBody` takes at most: 10 to 29. */
  function SliceLength(r: Unit): (n: int)
    ensures 10 <= n <= 29
  {
    RandomInt(r, 20, 10)
  }

  /** `match[1] || match[2] || "anonymous"`. */
  function MatchName(x: RegexMatch): (name: string)
    ensures name != ""
    ensures x.group1 != "" ==> name == x.group1
    ensures x.group1 == "" && x.group2 != "" ==> name == x.group2
    ensures x.group1 == "" && x.group2 == "" ==> name == "anonymous"
  {
    if x.group1 != "" then x.group1 else if x.group2 != "" then x.group2 else "anonymous"
  }

  /** `code.substring(0, index).split("\n").length`: the 1-based line on which
      the offset lies (substring clamps an offset past the end). */
  function StartLine(code: string, index: nat): (line: nat)
    ensures line == CountChar(code[..Min(index, |code|)], '\n') + 1
  {
    |Split(code[..Min(index, |code|)], '\n')|
  }

  /** A later offset never lies on an earlier line. */
  lemma StartLineMonotone(code: string, a: nat, b: nat)
    requires a <= b
    ensures StartLine(code, a) <= StartLine(code, b)
  {
    var i, j := Min(a, |code|), Min(b, |code|);
    assert code[..j] == code[..i] + code[i..j];
    CountCharAppend(code[..i], code[i..j], '\n');
  }

  /** `extractFunctionBody`: the first lines (at most `SliceLength(r)`) of the
      text from the match on, joined again. */
  function ExtractFunctionBody(code: string, startIndex: nat, r: Unit): (body: string)
    ensures body <= code[Min(startIndex, |code|)..]
    ensures |Split(body, '\n')| == Min(|Split(code[Min(startIndex, |code|)..], '\n')|, SliceLength(r))
    ensures Split(body, '\n') == Split(code[Min(startIndex, |code|)..], '\n')[..Min(|Split(code[Min(startIndex, |code|)..], '\n')|, SliceLength(r))]
  {
    var remainingCode := code[Min(startIndex, |code|)..];
    var lines := Split(remainingCode, '\n');
    var functionLines := Min(|lines|, SliceLength(r));
    SplitJoin(lines[..functionLines], '\n');
    JoinedLinesArePrefix(remainingCode, '\n', functionLines);
    Join(lines[..functionLines], '\n')
  }

  /** What every reported function satisfies. */
  predicate WellFormedFunction(f: FunctionRecord)
  {
    f.name != ""
    && 1 <= f.complexity <= MaxComplexity
    && 1 <= f.lines <= 29
    && f.startLine >= 1
    && f.endLine == f.startLine + f.lines - 1
  }

  /** The record the loop body of `extractFunctions` pushes for one match. */
  function MakeFunction(m: Matcher, code: string, keywords: seq<string>, x: RegexMatch, r: Unit): (f: FunctionRecord)
    ensures WellFormedFunction(f)
    ensures f.name == MatchName(x)
    ensures f.startLine == StartLine(code, x.index)
    ensures f.lines == Min(|Split(code[Min(x.index, |code|)..], '\n')|, SliceLength(r))
    ensures f.complexity == KeywordScore(m, ExtractFunctionBody(code, x.index, r), keywords)
  {
    var startLine := StartLine(code, x.index);
    var functionCode := ExtractFunctionBody(code, x.index, r);
    var functionLines := |Split(functionCode, '\n')|;
    FunctionRecord(MatchName(x), KeywordScore(m, functionCode, keywords), functionLines, startLine, startLine + functionLines - 1)
  }

  /** `new RegExp(pattern, "gm")`. */
  function SignatureRegex(pattern: string): Regex
  {
    Regex(pattern, "gm")
  }

  /** The records of one pattern's matches, in match order; the `k`-th draws
      random value `first + k`. */
  function PatternFunctions(m: Matcher, code: string, keywords: seq<string>, matches: seq<RegexMatch>, random: RandomStream, first: nat)
    : (fs: seq<FunctionRecord>)
    ensures |fs| == |matches|
    ensures forall k :: 0 <= k < |fs| ==> WellFormedFunction(fs[k])
  {
    seq(|matches|, k requires 0 <= k < |matches| => MakeFunction(m, code, keywords, matches[k], random(first + k)))
  }

  /** Total number of matches of the patterns in `code`. */
  function MatchCount(m: Matcher, code: string, patterns: seq<string>): nat
  {
    if patterns == [] then 0
    else MatchCount(m, code, patterns[..|patterns| - 1]) + |m.exec(SignatureRegex(patterns[|patterns| - 1]), code)|
  }

  /** Every record found, pattern by pattern in table order and match by match
      within a pattern, before the fallback and the cap. */
  function DetectedFunctions(m: Matcher, code: string, keywords: seq<string>, patterns: seq<string>, random: RandomStream)
    : (fs: seq<FunctionRecord>)
    ensures |fs| == MatchCount(m, code, patterns)
    ensures forall k :: 0 <= k < |fs| ==> WellFormedFunction(fs[k])
  {
    if patterns == [] then []
    else
      var before := patterns[..|patterns| - 1];
      var matches := m.exec(SignatureRegex(patterns[|patterns| - 1]), code);
      DetectedFunctions(m, code, keywords, before, random)
        + PatternFunctions(m, code, keywords, matches, random, MatchCount(m, code, before))
  }

  /** The three placeholders reported when nothing matches (lib/code-analyzer.ts:164-170). */
  const Placeholders: seq<FunctionRecord> := [
    FunctionRecord("main", 5, 15, 1, 15),
    FunctionRecord("processData", 8, 25, 17, 41),
    FunctionRecord("validateInput", 3, 10, 43, 52)
  ]

  /** What `extractFunctions` returns. */
  function Functions(m: Matcher, code: string, language: string, random: RandomStream): seq<FunctionRecord>
  {
    var detected := DetectedFunctions(m, code, GetComplexityKeywords(language), GetFunctionPatterns(language), random);
    if detected == [] then Placeholders else detected[..Min(FunctionLimit, |detected|)]
  }

  /** The body of the `while (exec)` loop in `extractFunctions` for one match. */
  method AnalyzeMatch(m: Matcher, code: string, keywords: seq<string>, found: RegexMatch, r: Unit)
    returns (record: FunctionRecord)
    ensures record == MakeFunction(m, code, keywords, found, r)
  {
    var functionName := MatchName(found);
    var startLine := StartLine(code, found.index);
    var functionCode := ExtractFunctionBody(code, found.index, r);
    var complexity := ScoreKeywords(m, functionCode, keywords);
    var functionLines := |Split(functionCode, '\n')|;
    record := FunctionRecord(functionName, complexity, functionLines, startLine, startLine + functionLines - 1);
  }

  /** A sequence that starts with `a` and continues with the elements of `b` is `a + b`. */
  lemma AppendFromParts<T>(s: seq<T>, a: seq<T>, b: seq<T>)
    requires |s| == |a| + |b| && s[..|a|] == a
    requires forall k :: |a| <= k < |s| ==> s[k] == b[k - |a|]
    ensures s == a + b
  {
    assert forall k :: 0 <= k < |a| ==> s[k] == s[..|a|][k];
  }

  /** The `while ((match = regex.exec(code)) !== null)` loop of `extractFunctions`
      for one pattern: one record pushed per match, each drawing the next random value. */
  method PushPatternFunctions(m: Matcher, code: string, keywords: seq<string>, matches: seq<RegexMatch>,
                              random: RandomStream, first: nat, functions: seq<FunctionRecord>)
    returns (result: seq<FunctionRecord>, drawn: nat)
    ensures result == functions + PatternFunctions(m, code, keywords, matches, random, first)
    ensures drawn == first + |matches|
  {
    ghost var pushed := PatternFunctions(m, code, keywords, matches, random, first);
    result, drawn := functions, first;
    var j := 0;
    while j < |matches|
      invariant 0 <= j <= |matches|
      invariant drawn == first + j
      invariant |result| == |functions| + j && result[..|functions|] == functions
      invariant forall k :: |functions| <= k < |result| ==> result[k] == pushed[k - |functions|]
    {
      var record := AnalyzeMatch(m, code, keywords, matches[j], random(drawn));
      result := result + [record];
      drawn := drawn + 1;
      j := j + 1;
    }
    AppendFromParts(result, functions, pushed);
  }

  /** The `forEach` over the signature patterns in `extractFunctions`. */
  method DetectFunctions(m: Matcher, code: string, keywords: seq<string>, patterns: seq<string>, random: RandomStream)
    returns (functions: seq<FunctionRecord>)
    ensures functions == DetectedFunctions(m, code, keywords, patterns, random)
  {
    functions := [];
    var drawn := 0;
    for i := 0 to |patterns|
      invariant functions == DetectedFunctions(m, code, keywords, patterns[..i], random)
      invariant drawn == MatchCount(m, code, patterns[..i])
    {
      assert patterns[..i + 1][..i] == patterns[..i];
      var regex := SignatureRegex(patterns[i]);
      var matches := m.exec(regex, code);
      functions, drawn := PushPatternFunctions(m, code, keywords, matches, random, drawn, functions);
    }
    assert patterns[..|patterns|] == patterns;
  }

  /** `extractFunctions`: the patterns of the language, the fallback and the
      `slice(0, 10)`. */
  method ExtractFunctions(m: Matcher, code: string, language: string, random: RandomStream)
    returns (functions: seq<FunctionRecord>)
    ensures functions == Functions(m, code, language, random)
    ensures 1 <= |functions| <= FunctionLimit
    ensures forall k :: 0 <= k < |functions| ==> WellFormedFunction(functions[k])
  {
    var complexityKeywords := GetComplexityKeywords(language);
    functions := DetectFunctions(m, code, complexityKeywords, GetFunctionPatterns(language), random);
    if |functions| == 0 {
      functions := Placeholders;
    }
    functions := functions[..Min(FunctionLimit, |functions|)];
  }

  /** No match at all yields exactly the three placeholders. */
  lemma NoMatchesGivePlaceholders(m: Matcher, code: string, language: string, random: RandomStream)
    requires MatchCount(m, code, GetFunctionPatterns(language)) == 0
    ensures Functions(m, code, language, random) == Placeholders
  {
  }

  /** Otherwise the result is the first ten detections, in discovery order. */
  lemma MatchesGiveDetections(m: Matcher, code: string, language: string, random: RandomStream)
    requires MatchCount(m, code, GetFunctionPatterns(language)) > 0
    ensures var fs := Functions(m, code, language, random);
      var detected := DetectedFunctions(m, code, GetComplexityKeywords(language), GetFunctionPatterns(language), random);
      |fs| == Min(FunctionLimit, MatchCount(m, code, GetFunctionPatterns(language)))
      && fs == detected[..|fs|]
  {
  }

  /** Every reported function, detected or placeholder, is well formed and at
      most 29 lines long. */
  lemma FunctionsWellFormed(m: Matcher, code: string, language: string, random: RandomStream)
    ensures var fs := Functions(m, code, language, random);
      1 <= |fs| <= FunctionLimit
      && forall k :: 0 <= k < |fs| ==> WellFormedFunction(fs[k]) && fs[k].lines <= 29
  {
  }

  /** Within one pattern, records follow the matches: if the matches come in
      increasing offset order, so do the records' start lines. */
  lemma PatternFunctionsInOrder(m: Matcher, code: string, keywords: seq<string>, matches: seq<RegexMatch>,
                                random: RandomStream, first: nat, a: nat, b: nat)
    requires a <= b < |matches|
    requires forall i, j :: 0 <= i <= j < |matches| ==> matches[i].index <= matches[j].index
    ensures var fs := PatternFunctions(m, code, keywords, matches, random, first);
      fs[a].startLine <= fs[b].startLine
  {
    StartLineMonotone(code, matches[a].index, matches[b].index);
  }

  // ---------------------------------------------------------------- classes

  /** What every reported class satisfies. */
  predicate WellFormedClass(c: ClassRecord)
  {
    5 <= c.complexity <= 19 && 2 <= c.methods <= 9 && 20 <= c.lines <= 119
  }

  /** The record the loop body of `extractClasses` pushes for one match: the
      name is capture group 1, the metrics are three random draws. */
  function MakeClass(x: RegexMatch, r1: Unit, r2: Unit, r3: Unit): (c: ClassRecord)
    ensures WellFormedClass(c)
    ensures c.name == x.group1
  {
    ClassRecord(x.group1, RandomInt(r1, 15, 5), RandomInt(r2, 8, 2), RandomInt(r3, 100, 20))
  }

  /** The records of one pattern's matches; the `k`-th draws values
      `3 * (first + k)` to `3 * (first + k) + 2`. */
  function PatternClasses(matches: seq<RegexMatch>, random: RandomStream, first: nat): (cs: seq<ClassRecord>)
    ensures |cs| == |matches|
    ensures forall k :: 0 <= k < |matches| ==>
      cs[k] == MakeClass(matches[k], random(3 * (first + k)), random(3 * (first + k) + 1), random(3 * (first + k) + 2))
  {
    seq(|matches|, k requires 0 <= k < |matches| =>
      MakeClass(matches[k], random(3 * (first + k)), random(3 * (first + k) + 1), random(3 * (first + k) + 2)))
  }

  /** Every class record found, before the cap. */
  function DetectedClasses(m: Matcher, code: string, patterns: seq<string>, random: RandomStream): (cs: seq<ClassRecord>)
    ensures |cs| == MatchCount(m, code, patterns)
    ensures forall k :: 0 <= k < |cs| ==> WellFormedClass(cs[k])
  {
    if patterns == [] then []
    else
      var before := patterns[..|patterns| - 1];
      var matches := m.exec(SignatureRegex(patterns[|patterns| - 1]), code);
      DetectedClasses(m, code, before, random) + PatternClasses(matches, random, MatchCount(m, code, before))
  }

  /** What `extractClasses` returns. */
  function Classes(m: Matcher, code: string, language: string, random: RandomStream): seq<ClassRecord>
  {
    var detected := DetectedClasses(m, code, GetClassPatterns(language), random);
    detected[..Min(ClassLimit, |detected|)]
  }

  /** The `while ((match = regex.exec(code)) !== null)` loop of `extractClasses`
      for one pattern: one record pushed per match, each drawing three random values. */
  method PushPatternClasses(matches: seq<RegexMatch>, random: RandomStream, first: nat, classes: seq<ClassRecord>)
    returns (result: seq<ClassRecord>)
    ensures result == classes + PatternClasses(matches, random, first)
  {
    ghost var pushed := PatternClasses(matches, random, first);
    result := classes;
    var drawn := 3 * first;
    var j := 0;
    while j < |matches|
      invariant 0 <= j <= |matches|
      invariant drawn == 3 * (first + j)
      invariant |result| == |classes| + j && result[..|classes|] == classes
      invariant forall k :: |classes| <= k < |result| ==> result[k] == pushed[k - |classes|]
    {
      var className := matches[j].group1;
      var classComplexity := RandomInt(random(drawn), 15, 5);
      var methodCount := RandomInt(random(drawn + 1), 8, 2);
      var classLines := RandomInt(random(drawn + 2), 100, 20);
      var record := ClassRecord(className, classComplexity, methodCount, classLines);
      assert record == MakeClass(matches[j], random(drawn), random(drawn + 1), random(drawn + 2));
      result := result + [record];
      drawn := drawn + 3;
      j := j + 1;
    }
    AppendFromParts(result, classes, pushed);
  }

  /** The `forEach` over the signature patterns in `extractClasses`. */
  method DetectClasses(m: Matcher, code: string, patterns: seq<string>, random: RandomStream)
    returns (classes: seq<ClassRecord>)
    ensures classes == DetectedClasses(m, code, patterns, random)
  {
    classes := [];
    var matched := 0;
    for i := 0 to |patterns|
      invariant classes == DetectedClasses(m, code, patterns[..i], random)
      invariant matched == MatchCount(m, code, patterns[..i])
    {
      assert patterns[..i + 1][..i] == patterns[..i];
      var regex := SignatureRegex(patterns[i]);
      var matches := m.exec(regex, code);
      classes := PushPatternClasses(matches, random, matched, classes);
      matched := matched + |matches|;
    }
    assert patterns[..|patterns|] == patterns;
  }

  /** `extractClasses`: the patterns of the language and the `slice(0, 5)`. */
  method ExtractClasses(m: Matcher, code: string, language: string, random: RandomStream)
    returns (classes: seq<ClassRecord>)
    ensures classes == Classes(m, code, language, random)
    ensures |classes| <= ClassLimit
    ensures forall k :: 0 <= k < |classes| ==> WellFormedClass(classes[k])
  {
    classes := DetectClasses(m, code, GetClassPatterns(language), random);
    classes := classes[..Min(ClassLimit, |classes|)];
  }

  /** Unknown tags, "go" and "rust" have no class patterns, so no classes. */
  lemma NoClassPatternsNoClasses(m: Matcher, code: string, language: string, random: RandomStream)
    requires ClassPatternEntry(language).None?
    ensures Classes(m, code, language, random) == []
  {
  }

  /** At most five classes, each with its metrics in the random ranges, and
      exactly min(5, matches) of them. */
  lemma ClassesBounded(m: Matcher, code: string, language: string, random: RandomStream)
    ensures var cs := Classes(m, code, language, random);
      |cs| == Min(ClassLimit, MatchCount(m, code, GetClassPatterns(language)))
      && forall k :: 0 <= k < |cs| ==> WellFormedClass(cs[k])
  {
  }
}
