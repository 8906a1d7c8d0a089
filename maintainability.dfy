/** `calculateMaintainabilityIndex` (lib/code-analyzer.ts:274-283):
    100 - 2 * complexity - 5 * ln(codeLines), clamped to [0, 100] and rounded.
    The logarithm is left abstract; only the clamp and the rounding are modelled. */
module Maintainability {

  /** A value `Math.log` can return on a line count: a real number, or
      -Infinity for `Math.log(0)`. */
  datatype LogValue = NegInfinity | Finite(value: real)

  /** What the model assumes of `Math.log` on line counts: -Infinity at 0,
      exactly 0 at 1, finite, non-negative and non-decreasing from 1 on. */
  ghost predicate IsNaturalLog(ln: nat -> LogValue)
  {
    ln(0) == NegInfinity
    && ln(1) == Finite(0.0)
    && (forall n: nat :: n >= 1 ==> ln(n).Finite? && ln(n).value >= 0.0)
    && (forall a: nat, b: nat :: 1 <= a <= b && ln(a).Finite? && ln(b).Finite? ==> ln(a).value <= ln(b).value)
  }

  function RealMin(a: real, b: real): real { if a <= b then a else b }
  function RealMax(a: real, b: real): real { if a <= b then b else a }

  /** `Math.round`: the nearest integer, halves rounded up. */
  function Round(x: real): (n: int)
    ensures n as real - 0.5 <= x < n as real + 0.5
  {
    (x + 0.5).Floor
  }

  /** `Math.max(0, Math.min(100, 100 - complexity * 2 - Math.log(codeLines) * 5))`.
      With the log at -Infinity the difference is +Infinity and the clamp gives 100. */
  function Score(complexity: int, lnCodeLines: LogValue): (s: real)
    ensures 0.0 <= s <= 100.0
  {
    match lnCodeLines
    case NegInfinity => 100.0
    case Finite(v) => RealMax(0.0, RealMin(100.0, 100.0 - complexity as real * 2.0 - v * 5.0))
  }

  /** `calculateMaintainabilityIndex`: always an integer in [0, 100], and 100
      when the line count's log is -Infinity. */
  function CalculateMaintainabilityIndex(codeLines: nat, complexity: int, ln: nat -> LogValue): (mi: int)
    ensures 0 <= mi <= 100
    ensures ln(codeLines).NegInfinity? ==> mi == 100
  {
    Round(Score(complexity, ln(codeLines)))
  }

  lemma RoundMonotone(x: real, y: real)
    requires x <= y
    ensures Round(x) <= Round(y)
  {
  }

  /** More complexity never raises the index. */
  lemma IndexNonIncreasingInComplexity(codeLines: nat, c1: int, c2: int, ln: nat -> LogValue)
    requires c1 <= c2
    ensures CalculateMaintainabilityIndex(codeLines, c2, ln) <= CalculateMaintainabilityIndex(codeLines, c1, ln)
  {
    RoundMonotone(Score(c2, ln(codeLines)), Score(c1, ln(codeLines)));
  }

  /** More code lines never raise the index. At 0 code lines the index is
      already 100, the most it can be. */
  lemma IndexNonIncreasingInCodeLines(a: nat, b: nat, complexity: int, ln: nat -> LogValue)
    requires IsNaturalLog(ln)
    requires a <= b
    ensures CalculateMaintainabilityIndex(b, complexity, ln) <= CalculateMaintainabilityIndex(a, complexity, ln)
  {
    if a == 0 {
      assert CalculateMaintainabilityIndex(a, complexity, ln) == 100;
    } else {
      assert ln(a).Finite? && ln(b).Finite?;
      assert ln(a).value <= ln(b).value;
      RoundMonotone(Score(complexity, ln(b)), Score(complexity, ln(a)));
    }
  }

  /** No code lines: `Math.log(0)` is -Infinity and the index is 100. */
  lemma NoCodeLinesGiveFullIndex(complexity: int, ln: nat -> LogValue)
    requires IsNaturalLog(ln)
    ensures CalculateMaintainabilityIndex(0, complexity, ln) == 100
  {
  }

  /** One code line: the size penalty vanishes and the index is 100 - 2 * complexity. */
  lemma OneCodeLineIndex(complexity: int, ln: nat -> LogValue)
    requires IsNaturalLog(ln)
    requires 1 <= complexity <= 50
    ensures CalculateMaintainabilityIndex(1, complexity, ln) == 100 - 2 * complexity
  {
    var x := 100.0 - complexity as real * 2.0;
    assert Score(complexity, ln(1)) == x;
    assert x == (100 - 2 * complexity) as real;
  }
}
