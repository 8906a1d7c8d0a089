/** The keyword complexity scorer (lib/code-analyzer.ts:81-101): cyclomatic
    complexity is one plus the number of keyword matches, capped at 50, and
    cognitive complexity is 1.3 times that, rounded down. */
module Complexity {
  import opened Text
  import opened Regex
  import opened Languages

  /** The cap `calculateCyclomaticComplexity` applies. */
  const MaxComplexity := 50

  /** `new RegExp(`\\b${keyword}\\b`, "g")`: every token, symbolic or not, is
      wrapped in word-boundary assertions. */
  function KeywordRegex(keyword: string): (r: Regex)
    ensures r.flags == "g"
    ensures |r.source| == |keyword| + 4 && r.source[2..|keyword| + 2] == keyword
    ensures r.source[..2] == r.source[|keyword| + 2..] == @"\b"
  {
    var source := @"\b" + keyword + @"\b";
    assert source[..2] == @"\b" && source[|keyword| + 2..] == @"\b";
    Regex(source, "g")
  }

  /** Total number of matches of the keyword expressions in `code`. */
  function KeywordMatches(m: Matcher, keywords: seq<string>, code: string): nat
  {
    if keywords == [] then 0
    else KeywordMatches(m, keywords[..|keywords| - 1], code) + m.count(KeywordRegex(keywords[|keywords| - 1]), code)
  }

  /** One plus the matches of the keyword expressions in `code`, capped. */
  function KeywordScore(m: Matcher, code: string, keywords: seq<string>): (cc: int)
    ensures 1 <= cc <= MaxComplexity
    ensures cc < MaxComplexity ==> cc == 1 + KeywordMatches(m, keywords, code)
    ensures cc == MaxComplexity <==> KeywordMatches(m, keywords, code) >= MaxComplexity - 1
  {
    Min(1 + KeywordMatches(m, keywords, code), MaxComplexity)
  }

  /** The cyclomatic complexity of `code`: the score of the keywords of its language. */
  function Cyclomatic(m: Matcher, code: string, language: string): (cc: int)
    ensures 1 <= cc <= MaxComplexity
  {
    KeywordScore(m, code, GetComplexityKeywords(language))
  }

  /** The accumulating loop of `calculateCyclomaticComplexity` over a keyword list. */
  method ScoreKeywords(m: Matcher, code: string, keywords: seq<string>) returns (cc: int)
    ensures cc == KeywordScore(m, code, keywords)
  {
    var complexity := 1;
    var i := 0;
    while i < |keywords|
      invariant 0 <= i <= |keywords|
      invariant complexity == 1 + KeywordMatches(m, keywords[..i], code)
    {
      assert keywords[..i + 1][..i] == keywords[..i];
      var matches := m.count(KeywordRegex(keywords[i]), code);
      if matches > 0 {
        complexity := complexity + matches;
      }
      i := i + 1;
    }
    assert keywords[..i] == keywords;
    cc := Min(complexity, MaxComplexity);
  }

  /** `calculateCyclomaticComplexity`: the keywords of the language, scored. */
  method CalculateCyclomaticComplexity(m: Matcher, code: string, language: string) returns (cc: int)
    ensures cc == Cyclomatic(m, code, language)
  {
    var complexityKeywords := GetComplexityKeywords(language);
    cc := ScoreKeywords(m, code, complexityKeywords);
  }

  /** More matches never lower the score: cyclomatic complexity is monotone in
      the keyword matches found. */
  lemma {:induction false} KeywordMatchesMonotone(m1: Matcher, m2: Matcher, keywords: seq<string>, code: string)
    requires forall i :: 0 <= i < |keywords| ==> m1.count(KeywordRegex(keywords[i]), code) <= m2.count(KeywordRegex(keywords[i]), code)
    ensures KeywordMatches(m1, keywords, code) <= KeywordMatches(m2, keywords, code)
  {
    if keywords != [] {
      var init := keywords[..|keywords| - 1];
      assert forall i :: 0 <= i < |init| ==> init[i] == keywords[i];
      KeywordMatchesMonotone(m1, m2, init, code);
    }
  }

  lemma CyclomaticMonotone(m1: Matcher, m2: Matcher, code: string, language: string)
    requires var keywords := GetComplexityKeywords(language);
      forall i :: 0 <= i < |keywords| ==> m1.count(KeywordRegex(keywords[i]), code) <= m2.count(KeywordRegex(keywords[i]), code)
    ensures Cyclomatic(m1, code, language) <= Cyclomatic(m2, code, language)
  {
    KeywordMatchesMonotone(m1, m2, GetComplexityKeywords(language), code);
  }

  /** An unknown tag scores exactly like "javascript". */
  lemma UnknownLanguageScoresLikeJavascript(m: Matcher, code: string, language: string)
    requires language !in KnownLanguages
    ensures Cyclomatic(m, code, language) == Cyclomatic(m, code, "javascript")
    ensures CognitiveComplexity(m, code, language) == CognitiveComplexity(m, code, "javascript")
  {
    UnknownLanguageFallsBack(language);
  }

  /** With no keyword matches at all the score is the base value 1. */
  lemma {:induction false} NoMatchesGiveBase(m: Matcher, keywords: seq<string>, code: string)
    requires forall i :: 0 <= i < |keywords| ==> m.count(KeywordRegex(keywords[i]), code) == 0
    ensures KeywordMatches(m, keywords, code) == 0
  {
    if keywords != [] {
      var init := keywords[..|keywords| - 1];
      assert forall i :: 0 <= i < |init| ==> init[i] == keywords[i];
      NoMatchesGiveBase(m, init, code);
    }
  }

  /** `Math.floor(x * 1.3)` for an integer x is `13 * x / 10` rounded down. */
  lemma FloorOfScaled(x: int)
    ensures (x as real * 1.3).Floor == (13 * x) / 10
  {
    var q := (13 * x) / 10;
    var r := (13 * x) % 10;
    assert 13 * x == 10 * q + r && 0 <= r < 10;
    assert x as real * 1.3 == q as real + r as real / 10.0;
  }

  /** `calculateCognitiveComplexity`: the cyclomatic complexity times 1.3,
      rounded down; it is never below the cyclomatic complexity and never above 65. */
  function CognitiveComplexity(m: Matcher, code: string, language: string): (r: int)
    ensures r == (13 * Cyclomatic(m, code, language)) / 10
    ensures Cyclomatic(m, code, language) <= r <= 65
  {
    var cc := Cyclomatic(m, code, language);
    FloorOfScaled(cc);
    (cc as real * 1.3).Floor
  }
}
