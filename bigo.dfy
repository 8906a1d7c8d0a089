/** `analyzeBigO` (lib/code-analyzer.ts:326-429): the first of eight pattern
    tests that succeeds picks the time and space class, and allocation of a
    collection then widens constant space to linear. */
module BigO {
  import opened Text
  import opened Regex
  import opened Extraction

  /** The complexity classes the analyzer reports. */
  const ConstantClass := "O(1)"
  const LogClass := "O(log n)"
  const LinearithmicClass := "O(n log n)"
  const LinearClass := "O(n)"
  const QuadraticClass := "O(n\U{00B2})"
  const CubicClass := "O(n\U{00B3})"
  const ExponentialClass := "O(2\U{207F})"

  /** The `BigOAnalysis` record. */
  datatype BigOAnalysis = BigOAnalysis(timeComplexity: string, spaceComplexity: string, explanation: string, confidence: int)

  /** The eight verdicts, in the order the analyzer tries them. */
  datatype Verdict =
    | TripleNested | Nested | Sorting | ExponentialRecursion | LinearRecursion
    | BinarySearch | Linq | SingleLoop | Constant

  const NestedLoopsPattern := Regex(@"for\s*\([^}]*for\s*\(|while\s*\([^}]*while\s*\(|for\s*\([^}]*while\s*\(|foreach\s*\([^}]*foreach\s*\(", "gi")
  const TripleNestedPattern := Regex(@"for\s*\([^}]*for\s*\([^}]*for\s*\(|foreach\s*\([^}]*foreach\s*\([^}]*foreach\s*\(", "gi")
  const SingleLoopPattern := Regex(@"(?:for|while|foreach)\s*\(", "gi")
  const BinarySearchPattern := Regex(@"(?:mid|middle)\s*=.*\/\s*2|low.*high.*mid", "gi")
  /** Declared by the analyzer beside the others but never matched against the code. */
  const HashAccessPattern := Regex(@"\[.*\]|\.ContainsKey\(|\.TryGetValue\(|\.Add\(|Dictionary|HashSet", "gi")
  const SortingPattern := Regex(@"\.Sort\(|\.OrderBy\(|\.OrderByDescending\(|Array\.Sort|List\.Sort", "gi")
  const LinqPattern := Regex(@"\.Where\(|\.Select\(|\.GroupBy\(|\.Join\(", "gi")
  /** The inline `/return.*\+.*\(/gi` that separates exponential recursion. */
  const ExponentialPattern := Regex(@"return.*\+.*\(", "gi")

  /** The names of the reported functions, in order. */
  function FunctionNames(functions: seq<FunctionRecord>): (names: seq<string>)
    ensures |names| == |functions|
    ensures forall k :: 0 <= k < |functions| ==> names[k] == functions[k].name
  {
    seq(|functions|, k requires 0 <= k < |functions| => functions[k].name)
  }

  /** The recursion pattern: any reported function name followed by "(". */
  function RecursionPattern(functions: seq<FunctionRecord>): (r: Regex)
    ensures r.flags == "gi"
    ensures r.source == @"\b(?:" + Join(FunctionNames(functions), '|') + @")\s*\("
  {
    Regex(@"\b(?:" + Join(FunctionNames(functions), '|') + @")\s*\(", "gi")
  }

  /** The names can be read back out of the recursion pattern: it is `\b(?:`,
      then the names separated by `|`, then `)\s*\(`. */
  lemma RecursionPatternNames(functions: seq<FunctionRecord>)
    requires |functions| >= 1
    requires forall k :: 0 <= k < |functions| ==> '|' !in functions[k].name
    ensures var s := RecursionPattern(functions).source;
      |s| >= 11 && s[..5] == @"\b(?:" && s[|s| - 6..] == @")\s*\("
      && Split(s[5..|s| - 6], '|') == FunctionNames(functions)
  {
    var s := RecursionPattern(functions).source;
    var mid := Join(FunctionNames(functions), '|');
    assert s == @"\b(?:" + mid + @")\s*\(";
    assert s[5..|s| - 6] == mid;
    SplitJoin(FunctionNames(functions), '|');
  }

  /** `code.match(p)` is non-null and non-empty. */
  predicate Found(m: Matcher, p: Regex, code: string)
  {
    m.count(p, code) > 0
  }

  /** The test that separates exponential from linear recursion. */
  predicate LooksExponential(m: Matcher, code: string)
  {
    Contains(code, "fibonacci") || Test(m, ExponentialPattern, code)
  }

  /** The condition of each verdict on its own, ignoring the ones tried before it. */
  predicate Guard(m: Matcher, code: string, functions: seq<FunctionRecord>, v: Verdict)
  {
    match v
    case TripleNested => Found(m, TripleNestedPattern, code)
    case Nested => Found(m, NestedLoopsPattern, code)
    case Sorting => Found(m, SortingPattern, code)
    case ExponentialRecursion => m.count(RecursionPattern(functions), code) > 2 && LooksExponential(m, code)
    case LinearRecursion => m.count(RecursionPattern(functions), code) > 2 && !LooksExponential(m, code)
    case BinarySearch => Found(m, BinarySearchPattern, code)
    case Linq => Found(m, LinqPattern, code)
    case SingleLoop => Found(m, SingleLoopPattern, code)
    case Constant => true
  }

  /** The verdicts in the order the analyzer tries them. */
  const Priority: seq<Verdict> :=
    [TripleNested, Nested, Sorting, ExponentialRecursion, LinearRecursion, BinarySearch, Linq, SingleLoop, Constant]

  /** The if/else-if chain of `analyzeBigO`. */
  function Classify(m: Matcher, code: string, functions: seq<FunctionRecord>): Verdict
  {
    if Found(m, TripleNestedPattern, code) then TripleNested
    else if Found(m, NestedLoopsPattern, code) then Nested
    else if Found(m, SortingPattern, code) then Sorting
    else if m.count(RecursionPattern(functions), code) > 2 then
      (if LooksExponential(m, code) then ExponentialRecursion else LinearRecursion)
    else if Found(m, BinarySearchPattern, code) then BinarySearch
    else if Found(m, LinqPattern, code) then Linq
    else if Found(m, SingleLoopPattern, code) then SingleLoop
    else Constant
  }

  /** The values each branch assigns (the initial values for `Constant`). */
  function Outcome(v: Verdict): BigOAnalysis
  {
    BigOAnalysis(TimeOf(v), SpaceOf(v), Explanation(v), ConfidenceOf(v))
  }

  function TimeOf(v: Verdict): string
  {
    match v
    case TripleNested => CubicClass
    case Nested => QuadraticClass
    case Sorting => LinearithmicClass
    case ExponentialRecursion => ExponentialClass
    case BinarySearch => LogClass
    case Constant => ConstantClass
    case _ => LinearClass
  }

  function SpaceOf(v: Verdict): string
  {
    match v
    case Sorting => LogClass
    case ExponentialRecursion | LinearRecursion | Linq => LinearClass
    case _ => ConstantClass
  }

  function ConfidenceOf(v: Verdict): int
  {
    match v
    case TripleNested => 90
    case Nested => 88
    case Sorting => 82
    case ExponentialRecursion => 75
    case LinearRecursion => 70
    case BinarySearch => 85
    case Linq => 75
    case SingleLoop => 80
    case Constant => 85
  }

  function Explanation(v: Verdict): string
  {
    match v
    case TripleNested => "Triple nested loops detected, resulting in cubic time complexity"
    case Nested => "Nested loops detected, resulting in quadratic time complexity"
    case Sorting => "Sorting operations detected, typically O(n log n) for efficient algorithms"
    case ExponentialRecursion => "Exponential recursion detected (like naive Fibonacci), very inefficient"
    case LinearRecursion => "Recursive algorithm detected with linear time and space complexity"
    case BinarySearch => "Binary search pattern detected, logarithmic time complexity"
    case Linq => "LINQ operations detected, typically linear time complexity"
    case SingleLoop => "Single loop detected, linear time complexity"
    case Constant => "Constant time and space complexity"
  }

  /** The code allocates one of the collection types. */
  predicate UsesCollections(code: string)
  {
    Contains(code, "new ")
    && (Contains(code, "List") || Contains(code, "Array") || Contains(code, "Dictionary") || Contains(code, "HashSet"))
  }

  const CollectionsNote := ". Additional space used for C# collections"

  /** The space adjustment: constant space becomes linear when the code
      allocates a collection; time and confidence are never touched. */
  function AdjustForCollections(code: string, a: BigOAnalysis): (r: BigOAnalysis)
    ensures r.timeComplexity == a.timeComplexity && r.confidence == a.confidence
    ensures UsesCollections(code) && a.spaceComplexity == ConstantClass ==>
      r.spaceComplexity == LinearClass && r.explanation == a.explanation + CollectionsNote
    ensures !(UsesCollections(code) && a.spaceComplexity == ConstantClass) ==> r == a
  {
    if UsesCollections(code) && a.spaceComplexity == ConstantClass then
      a.(spaceComplexity := LinearClass, explanation := a.explanation + CollectionsNote)
    else a
  }

  /** `analyzeBigO`. */
  function AnalyzeBigO(m: Matcher, code: string, functions: seq<FunctionRecord>): BigOAnalysis
  {
    AdjustForCollections(code, Outcome(Classify(m, code, functions)))
  }

  /** `analyzeBigO` as written: the if/else-if chain reassigning the four
      `let` variables, then the collections adjustment. */
  method EstimateBigO(m: Matcher, code: string, functions: seq<FunctionRecord>) returns (analysis: BigOAnalysis)
    ensures analysis == AnalyzeBigO(m, code, functions)
  {
    var timeComplexity, spaceComplexity, explanation, confidence := PatternChain(m, code, functions);
    if UsesCollections(code) {
      if spaceComplexity == ConstantClass {
        spaceComplexity := LinearClass;
        explanation := explanation + CollectionsNote;
      }
    }
    analysis := BigOAnalysis(timeComplexity, spaceComplexity, explanation, confidence);
  }

  /** The initial values of the four `let` variables, all matches taken
      up front, and the if/else-if chain that reassigns them. */
  method PatternChain(m: Matcher, code: string, functions: seq<FunctionRecord>)
    returns (timeComplexity: string, spaceComplexity: string, explanation: string, confidence: int)
    ensures BigOAnalysis(timeComplexity, spaceComplexity, explanation, confidence) == Outcome(Classify(m, code, functions))
  {
    timeComplexity, spaceComplexity, explanation, confidence :=
      ConstantClass, ConstantClass, Explanation(Constant), 85;
    var nestedLoopMatches := m.count(NestedLoopsPattern, code);
    var tripleNestedMatches := m.count(TripleNestedPattern, code);
    var singleLoopMatches := m.count(SingleLoopPattern, code);
    var recursionMatches := m.count(RecursionPattern(functions), code);
    var binarySearchMatches := m.count(BinarySearchPattern, code);
    var sortingMatches := m.count(SortingPattern, code);
    var linqMatches := m.count(LinqPattern, code);
    ghost var verdict := Classify(m, code, functions);
    if tripleNestedMatches > 0 {
      assert verdict == TripleNested;
      timeComplexity, spaceComplexity, explanation, confidence :=
        CubicClass, ConstantClass, Explanation(TripleNested), 90;
    } else if nestedLoopMatches > 0 {
      assert verdict == Nested;
      timeComplexity, spaceComplexity, explanation, confidence :=
        QuadraticClass, ConstantClass, Explanation(Nested), 88;
    } else if sortingMatches > 0 {
      assert verdict == Sorting;
      timeComplexity, spaceComplexity, explanation, confidence :=
        LinearithmicClass, LogClass, Explanation(Sorting), 82;
    } else if recursionMatches > 2 {
      if Contains(code, "fibonacci") || Test(m, ExponentialPattern, code) {
        assert verdict == ExponentialRecursion;
        timeComplexity, spaceComplexity, explanation, confidence :=
          ExponentialClass, LinearClass, Explanation(ExponentialRecursion), 75;
      } else {
        assert verdict == LinearRecursion;
        timeComplexity, spaceComplexity, explanation, confidence :=
          LinearClass, LinearClass, Explanation(LinearRecursion), 70;
      }
    } else if binarySearchMatches > 0 {
      assert verdict == BinarySearch;
      timeComplexity, spaceComplexity, explanation, confidence :=
        LogClass, ConstantClass, Explanation(BinarySearch), 85;
    } else if linqMatches > 0 {
      assert verdict == Linq;
      timeComplexity, spaceComplexity, explanation, confidence :=
        LinearClass, LinearClass, Explanation(Linq), 75;
    } else if singleLoopMatches > 0 {
      assert verdict == SingleLoop;
      timeComplexity, spaceComplexity, explanation, confidence :=
        LinearClass, ConstantClass, Explanation(SingleLoop), 80;
    }
  }

  /** The verdict is the first in priority order whose condition holds. */
  lemma ClassifyIsFirstGuard(m: Matcher, code: string, functions: seq<FunctionRecord>, i: nat)
    requires i < |Priority|
    ensures Classify(m, code, functions) == Priority[i] <==>
      Guard(m, code, functions, Priority[i]) && forall j :: 0 <= j < i ==> !Guard(m, code, functions, Priority[j])
  {
    var p := Priority;
    assert p[0] == TripleNested && p[1] == Nested && p[2] == Sorting && p[3] == ExponentialRecursion;
    assert p[4] == LinearRecursion && p[5] == BinarySearch && p[6] == Linq && p[7] == SingleLoop && p[8] == Constant;
  }

  /** Some verdict's condition, at the latest that of `Constant`, always holds. */
  lemma SomeGuardHolds(m: Matcher, code: string, functions: seq<FunctionRecord>)
    ensures Guard(m, code, functions, Classify(m, code, functions))
  {
  }

  /** The time classes, space classes and confidences the analyzer reports. */
  predicate ReportedTime(t: string)
  {
    t == ConstantClass || t == LogClass || t == LinearClass || t == LinearithmicClass
    || t == QuadraticClass || t == CubicClass || t == ExponentialClass
  }

  predicate ReportedSpace(s: string)
  {
    s == ConstantClass || s == LogClass || s == LinearClass
  }

  predicate ReportedConfidence(c: int)
  {
    c == 70 || c == 75 || c == 80 || c == 82 || c == 85 || c == 88 || c == 90
  }

  lemma OutcomeRange(v: Verdict)
    ensures ReportedTime(Outcome(v).timeComplexity)
    ensures ReportedSpace(Outcome(v).spaceComplexity)
    ensures ReportedConfidence(Outcome(v).confidence)
  {
    TimeRange(v);
    SpaceRange(v);
  }

  lemma TimeRange(v: Verdict)
    ensures ReportedTime(TimeOf(v))
  {
  }

  lemma SpaceRange(v: Verdict)
    ensures ReportedSpace(SpaceOf(v))
  {
  }

  /** The reported classes and confidences are from the analyzer's fixed lists. */
  lemma AnalysisRange(m: Matcher, code: string, functions: seq<FunctionRecord>)
    ensures var r := AnalyzeBigO(m, code, functions);
      ReportedTime(r.timeComplexity) && ReportedSpace(r.spaceComplexity) && ReportedConfidence(r.confidence)
  {
    OutcomeRange(Classify(m, code, functions));
  }

  /** Code that allocates a collection is never reported as constant space. */
  lemma CollectionsNeverConstantSpace(m: Matcher, code: string, functions: seq<FunctionRecord>)
    requires UsesCollections(code)
    ensures AnalyzeBigO(m, code, functions).spaceComplexity != ConstantClass
  {
  }

  /** Without collections the space class is the one the verdict gives; it is
      constant exactly for loops, binary search and straight-line code. */
  lemma ConstantSpaceVerdicts(m: Matcher, code: string, functions: seq<FunctionRecord>)
    requires !UsesCollections(code)
    ensures AnalyzeBigO(m, code, functions).spaceComplexity == ConstantClass <==>
      Classify(m, code, functions) in {TripleNested, Nested, BinarySearch, SingleLoop, Constant}
  {
  }

  /** With no pattern found the code is rated constant time at confidence 85. */
  lemma NothingFoundIsConstant(m: Matcher, code: string, functions: seq<FunctionRecord>)
    requires !Found(m, TripleNestedPattern, code) && !Found(m, NestedLoopsPattern, code)
    requires !Found(m, SortingPattern, code) && m.count(RecursionPattern(functions), code) <= 2
    requires !Found(m, BinarySearchPattern, code) && !Found(m, LinqPattern, code)
    requires !Found(m, SingleLoopPattern, code)
    ensures var r := AnalyzeBigO(m, code, functions);
      r.timeComplexity == ConstantClass && r.confidence == 85
      && (r.spaceComplexity == ConstantClass <==> !UsesCollections(code))
  {
  }

  /** Triple nesting overrides every other finding. */
  lemma TripleNestingWins(m: Matcher, code: string, functions: seq<FunctionRecord>)
    requires Found(m, TripleNestedPattern, code)
    ensures AnalyzeBigO(m, code, functions).timeComplexity == CubicClass
    ensures AnalyzeBigO(m, code, functions).confidence == 90
  {
  }
}
