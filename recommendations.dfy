/** `generateRecommendations` (lib/code-analyzer.ts:285-317): up to five
    advice rules, checked in a fixed order, with a two-message fallback when
    none of them fires. */
module Recommendations {
  import opened Text
  import opened Extraction

  /** The pieces of advice, one per message the analyzer can give. */
  datatype Advice =
    | BreakDown              // complexity above 15
    | RefactorConditionals   // complexity above 25
    | SplitFile              // more than 500 code lines
    | HighComplexity(count: nat)  // `count` functions of complexity above 10
    | ShortenFunctions       // some function longer than 50 lines
    | WithinRanges           // first message of the fallback
    | AddComments            // second message of the fallback

  const BreakDownText := "Consider breaking down complex functions into smaller, more manageable pieces"
  const RefactorConditionalsText := "High cyclomatic complexity detected - refactor conditional logic"
  const SplitFileText := "Large file detected - consider splitting into multiple modules"
  const HighComplexitySuffix := " function(s) have high complexity - focus refactoring efforts here"
  const ShortenFunctionsText := "Some functions are quite long - consider breaking them into smaller functions"
  const WithinRangesText := "Code complexity is within acceptable ranges"
  const AddCommentsText := "Consider adding more comments for better maintainability"

  /** The text of each piece of advice, as the analyzer pushes it. */
  function Message(a: Advice): string
  {
    match a
    case BreakDown => BreakDownText
    case RefactorConditionals => RefactorConditionalsText
    case SplitFile => SplitFileText
    case HighComplexity(n) => NatToString(n) + HighComplexitySuffix
    case ShortenFunctions => ShortenFunctionsText
    case WithinRanges => WithinRangesText
    case AddComments => AddCommentsText
  }

  /** The thresholds of the rules. */
  const ComplexThreshold := 15
  const VeryComplexThreshold := 25
  const LargeFileThreshold := 500
  const HighFunctionComplexity := 10
  const LongFunctionLines := 50

  /** `functions.filter((f) => f.complexity > 10)`: the high-complexity
      functions, in their original order. */
  function HighComplexityFunctions(fs: seq<FunctionRecord>): (r: seq<FunctionRecord>)
    ensures |r| <= |fs|
    ensures forall f :: f in r <==> f in fs && f.complexity > HighFunctionComplexity
  {
    if fs == [] then []
    else (if fs[0].complexity > HighFunctionComplexity then [fs[0]] else []) + HighComplexityFunctions(fs[1..])
  }

  /** The filter keeps every high-complexity record as often as it occurs and
      drops every other record. */
  lemma {:induction false} HighComplexityFunctionsCount(fs: seq<FunctionRecord>, f: FunctionRecord)
    ensures multiset(HighComplexityFunctions(fs))[f]
      == if f.complexity > HighFunctionComplexity then multiset(fs)[f] else 0
  {
    if fs != [] {
      HighComplexityFunctionsCount(fs[1..], f);
      assert fs == [fs[0]] + fs[1..];
    }
  }

  /** `functions.some((f) => f.lines > 50)`. */
  predicate AnyLong(fs: seq<FunctionRecord>)
  {
    exists f :: f in fs && f.lines > LongFunctionLines
  }

  /** One conditional push: `a` when `fires`, nothing otherwise. */
  function When(fires: bool, a: Advice): (r: seq<Advice>)
    ensures |r| <= 1
    ensures forall x :: x in r <==> fires && x == a
  {
    if fires then [a] else []
  }

  /** The advice of the rules that fire, in rule order. */
  function FiredRules(complexity: int, codeLines: int, functions: seq<FunctionRecord>): seq<Advice>
  {
    var high := |HighComplexityFunctions(functions)|;
    When(complexity > ComplexThreshold, BreakDown)
    + When(complexity > VeryComplexThreshold, RefactorConditionals)
    + When(codeLines > LargeFileThreshold, SplitFile)
    + When(high > 0, HighComplexity(high))
    + When(AnyLong(functions), ShortenFunctions)
  }

  /** The advice given: the fired rules, or the fallback pair when none fires. */
  function Advise(complexity: int, codeLines: int, functions: seq<FunctionRecord>): seq<Advice>
  {
    var fired := FiredRules(complexity, codeLines, functions);
    if fired == [] then [WithinRanges, AddComments] else fired
  }

  function Messages(advice: seq<Advice>): (r: seq<string>)
    ensures |r| == |advice|
    ensures forall i :: 0 <= i < |advice| ==> r[i] == Message(advice[i])
  {
    seq(|advice|, i requires 0 <= i < |advice| => Message(advice[i]))
  }

  /** The strings `generateRecommendations` returns. */
  function Recommendations(complexity: int, codeLines: int, functions: seq<FunctionRecord>): seq<string>
  {
    Messages(Advise(complexity, codeLines, functions))
  }

  lemma MessagesAppend(a: seq<Advice>, b: seq<Advice>)
    ensures Messages(a + b) == Messages(a) + Messages(b)
  {
  }

  /** One `if (...) recommendations.push(...)` of the analyzer. */
  method PushWhen(recommendations: seq<string>, fires: bool, a: Advice) returns (result: seq<string>)
    ensures result == recommendations + Messages(When(fires, a))
  {
    result := recommendations;
    if fires {
      result := result + [Message(a)];
    }
  }

  /** The five conditional pushes of `generateRecommendations`, in rule order. */
  method PushRules(complexity: int, codeLines: int, functions: seq<FunctionRecord>)
    returns (recommendations: seq<string>)
    ensures recommendations == Messages(FiredRules(complexity, codeLines, functions))
  {
    recommendations := [];
    recommendations := PushWhen(recommendations, complexity > ComplexThreshold, BreakDown);
    recommendations := PushWhen(recommendations, complexity > VeryComplexThreshold, RefactorConditionals);
    recommendations := PushWhen(recommendations, codeLines > LargeFileThreshold, SplitFile);
    var highComplexityFunctions := HighComplexityFunctions(functions);
    recommendations := PushWhen(recommendations, |highComplexityFunctions| > 0, HighComplexity(|highComplexityFunctions|));
    var anyLong := exists f :: f in functions && f.lines > LongFunctionLines;
    recommendations := PushWhen(recommendations, anyLong, ShortenFunctions);
    MessagesOfFiredRules(complexity, codeLines, functions);
  }

  /** `generateRecommendations`: the conditional pushes, then the fallback
      pair if nothing was pushed. */
  method GenerateRecommendations(complexity: int, codeLines: int, functions: seq<FunctionRecord>)
    returns (recommendations: seq<string>)
    ensures recommendations == Recommendations(complexity, codeLines, functions)
    ensures 1 <= |recommendations| <= 5
  {
    recommendations := PushRules(complexity, codeLines, functions);
    if |recommendations| == 0 {
      ghost var empty := recommendations;
      recommendations := recommendations + [Message(WithinRanges)];
      recommendations := recommendations + [Message(AddComments)];
      TwoPushes(empty, Message(WithinRanges), Message(AddComments));
      FallbackMessages();
    }
    AdviceShape(complexity, codeLines, functions);
  }

  lemma TwoPushes<T>(empty: seq<T>, a: T, b: T)
    requires |empty| == 0
    ensures empty + [a] + [b] == [a, b]
  {
  }

  lemma FallbackMessages()
    ensures Messages([WithinRanges, AddComments]) == [Message(WithinRanges), Message(AddComments)]
  {
  }

  /** The messages of the fired rules, one conditional piece at a time. */
  lemma MessagesOfFiredRules(complexity: int, codeLines: int, functions: seq<FunctionRecord>)
    ensures var high := |HighComplexityFunctions(functions)|;
      Messages(FiredRules(complexity, codeLines, functions))
      == [] + Messages(When(complexity > ComplexThreshold, BreakDown))
         + Messages(When(complexity > VeryComplexThreshold, RefactorConditionals))
         + Messages(When(codeLines > LargeFileThreshold, SplitFile))
         + Messages(When(high > 0, HighComplexity(high)))
         + Messages(When(AnyLong(functions), ShortenFunctions))
  {
    var high := |HighComplexityFunctions(functions)|;
    var p1, p2, p3 := When(complexity > ComplexThreshold, BreakDown),
      When(complexity > VeryComplexThreshold, RefactorConditionals), When(codeLines > LargeFileThreshold, SplitFile);
    var p4, p5 := When(high > 0, HighComplexity(high)), When(AnyLong(functions), ShortenFunctions);
    MessagesAppend(p1, p2);
    MessagesAppend(p1 + p2, p3);
    MessagesAppend(p1 + p2 + p3, p4);
    MessagesAppend(p1 + p2 + p3 + p4, p5);
    assert [] + Messages(p1) == Messages(p1);
  }

  lemma CancelSuffix(a: string, b: string, t: string)
    requires a + t == b + t
    ensures a == b
  {
    assert |a| == |b|;
    assert a == (a + t)[..|a|];
    assert b == (b + t)[..|b|];
  }

  /** The fixed messages are pairwise different: by length, and the two of
      equal length by their next-to-last letter. */
  lemma FixedMessagesDistinct()
    ensures |BreakDownText| == 77 && |ShortenFunctionsText| == 77 && |RefactorConditionalsText| == 64
    ensures |SplitFileText| == 62 && |WithinRangesText| == 43 && |AddCommentsText| == 56
    ensures BreakDownText != ShortenFunctionsText
  {
    assert BreakDownText[75] == 'e' && ShortenFunctionsText[75] == 'n';
  }

  /** The fourth rule's message is none of the fixed messages: it is the only
      one that ends in "e". */
  lemma HighComplexityMessageDistinct(n: nat, a: Advice)
    requires !a.HighComplexity?
    ensures Message(HighComplexity(n)) != Message(a)
  {
    var msg := Message(HighComplexity(n));
    assert msg[|msg| - 1] == HighComplexitySuffix[|HighComplexitySuffix| - 1] == 'e';
    match a
    case BreakDown => assert BreakDownText[|BreakDownText| - 1] == 's';
    case RefactorConditionals => assert RefactorConditionalsText[|RefactorConditionalsText| - 1] == 'c';
    case SplitFile => assert SplitFileText[|SplitFileText| - 1] == 's';
    case ShortenFunctions => assert ShortenFunctionsText[|ShortenFunctionsText| - 1] == 's';
    case WithinRanges => assert WithinRangesText[|WithinRangesText| - 1] == 's';
    case AddComments => assert AddCommentsText[|AddCommentsText| - 1] == 'y';
  }

  /** Different advice reads differently: the message determines the advice,
      including the count printed in the fourth rule's message. */
  lemma MessageInjective(a: Advice, b: Advice)
    requires Message(a) == Message(b)
    ensures a == b
  {
    if a.HighComplexity? && b.HighComplexity? {
      CancelSuffix(NatToString(a.count), NatToString(b.count), HighComplexitySuffix);
      ParseNatToString(a.count);
      ParseNatToString(b.count);
    } else if a.HighComplexity? {
      HighComplexityMessageDistinct(a.count, b);
    } else if b.HighComplexity? {
      HighComplexityMessageDistinct(b.count, a);
    } else {
      FixedMessagesDistinct();
    }
  }

  /** A message is in the result exactly when its advice was given. */
  lemma RecommendationsAreMessagesOfAdvice(complexity: int, codeLines: int, functions: seq<FunctionRecord>, a: Advice)
    ensures Message(a) in Recommendations(complexity, codeLines, functions) <==> a in Advise(complexity, codeLines, functions)
  {
    var advice := Advise(complexity, codeLines, functions);
    var r := Recommendations(complexity, codeLines, functions);
    if Message(a) in r {
      var i :| 0 <= i < |r| && r[i] == Message(a);
      MessageInjective(a, advice[i]);
    }
  }

  /** Each rule's advice is given exactly when its condition holds; the
      fourth carries the number of high-complexity functions. */
  lemma RulesFireOnTheirConditions(complexity: int, codeLines: int, functions: seq<FunctionRecord>)
    ensures BreakDown in Advise(complexity, codeLines, functions) <==> complexity > ComplexThreshold
    ensures RefactorConditionals in Advise(complexity, codeLines, functions) <==> complexity > VeryComplexThreshold
    ensures SplitFile in Advise(complexity, codeLines, functions) <==> codeLines > LargeFileThreshold
    ensures forall n :: HighComplexity(n) in Advise(complexity, codeLines, functions) <==>
      n == |HighComplexityFunctions(functions)| && n > 0
    ensures ShortenFunctions in Advise(complexity, codeLines, functions) <==> AnyLong(functions)
  {
    var high := |HighComplexityFunctions(functions)|;
    FiredRule(complexity, codeLines, functions, BreakDown);
    FiredRule(complexity, codeLines, functions, RefactorConditionals);
    FiredRule(complexity, codeLines, functions, SplitFile);
    FiredRule(complexity, codeLines, functions, ShortenFunctions);
    forall n: nat
      ensures HighComplexity(n) in Advise(complexity, codeLines, functions) <==> n == high && n > 0
    {
      FiredRule(complexity, codeLines, functions, HighComplexity(n));
    }
  }

  /** A piece of advice is among the fired rules exactly when its rule fires. */
  lemma FiredRule(complexity: int, codeLines: int, functions: seq<FunctionRecord>, x: Advice)
    ensures var high := |HighComplexityFunctions(functions)|;
      x in FiredRules(complexity, codeLines, functions) <==>
      (complexity > ComplexThreshold && x == BreakDown)
      || (complexity > VeryComplexThreshold && x == RefactorConditionals)
      || (codeLines > LargeFileThreshold && x == SplitFile)
      || (high > 0 && x == HighComplexity(high))
      || (AnyLong(functions) && x == ShortenFunctions)
  {
    var high := |HighComplexityFunctions(functions)|;
    var p1, p2, p3 := When(complexity > ComplexThreshold, BreakDown),
      When(complexity > VeryComplexThreshold, RefactorConditionals), When(codeLines > LargeFileThreshold, SplitFile);
    var p4, p5 := When(high > 0, HighComplexity(high)), When(AnyLong(functions), ShortenFunctions);
    assert x in p1 + p2 + p3 + p4 + p5 <==> x in p1 || x in p2 || x in p3 || x in p4 || x in p5;
  }

  /** The number printed in the "function(s) have high complexity" message is
      the number of functions of complexity above 10. */
  lemma ReportedCount(complexity: int, codeLines: int, functions: seq<FunctionRecord>, n: nat)
    requires NatToString(n) + HighComplexitySuffix in Recommendations(complexity, codeLines, functions)
    ensures n == |HighComplexityFunctions(functions)| && n > 0
  {
    RecommendationsAreMessagesOfAdvice(complexity, codeLines, functions, HighComplexity(n));
    RulesFireOnTheirConditions(complexity, codeLines, functions);
  }

  /** The fallback pair is given exactly when no rule fires, and then alone. */
  lemma FallbackWhenQuiet(complexity: int, codeLines: int, functions: seq<FunctionRecord>)
    ensures var a := Advise(complexity, codeLines, functions);
      var quiet := complexity <= ComplexThreshold && codeLines <= LargeFileThreshold
                   && |HighComplexityFunctions(functions)| == 0 && !AnyLong(functions);
      (WithinRanges in a <==> quiet)
      && (AddComments in a <==> quiet)
      && (quiet ==> a == [WithinRanges, AddComments])
  {
    var high := |HighComplexityFunctions(functions)|;
    FiredRule(complexity, codeLines, functions, WithinRanges);
    FiredRule(complexity, codeLines, functions, AddComments);
    if complexity > ComplexThreshold {
      FiredRule(complexity, codeLines, functions, BreakDown);
    } else if codeLines > LargeFileThreshold {
      FiredRule(complexity, codeLines, functions, SplitFile);
    } else if high > 0 {
      FiredRule(complexity, codeLines, functions, HighComplexity(high));
    } else if AnyLong(functions) {
      FiredRule(complexity, codeLines, functions, ShortenFunctions);
    } else {
      assert FiredRules(complexity, codeLines, functions) == [];
    }
  }

  /** Between one and five messages, and the second rule never fires without the first. */
  lemma AdviceShape(complexity: int, codeLines: int, functions: seq<FunctionRecord>)
    ensures var a := Advise(complexity, codeLines, functions);
      1 <= |a| <= 5
      && (complexity > VeryComplexThreshold ==> |a| >= 2 && a[0] == BreakDown && a[1] == RefactorConditionals)
  {
  }

  /** Functions from the extractor span at most 29 lines, so the long-function
      rule never fires on them. */
  lemma ExtractedFunctionsAreNeverLong(fs: seq<FunctionRecord>)
    requires forall k :: 0 <= k < |fs| ==> WellFormedFunction(fs[k])
    ensures !AnyLong(fs)
  {
  }

  /** For extracted functions the list has one to five messages and never the
      long-function advice. */
  lemma ExtractedFunctionsAdvice(complexity: int, codeLines: int, fs: seq<FunctionRecord>)
    requires forall k :: 0 <= k < |fs| ==> WellFormedFunction(fs[k])
    ensures 1 <= |Recommendations(complexity, codeLines, fs)| <= 5
    ensures Message(ShortenFunctions) !in Recommendations(complexity, codeLines, fs)
  {
    ExtractedFunctionsAreNeverLong(fs);
    AdviceShape(complexity, codeLines, fs);
    RulesFireOnTheirConditions(complexity, codeLines, fs);
    RecommendationsAreMessagesOfAdvice(complexity, codeLines, fs, ShortenFunctions);
  }

  /** The placeholder functions are all of low complexity, so when they stand
      in for detected ones the fourth rule stays silent. */
  lemma PlaceholdersRaiseNoComplexityAlarm()
    ensures HighComplexityFunctions(Placeholders) == []
  {
    assert Placeholders[1..][1..][1..] == [];
  }
}
