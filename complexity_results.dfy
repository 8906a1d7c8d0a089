/** The three badge classifiers of the results view
    (components/complexity-results.tsx:17-46): cyclomatic complexity, the
    maintainability index and a Big-O class each map to a level name and its
    colours. */
module ComplexityResults {
  import BigO

  /** A badge: level name, text colour and background classes. */
  datatype Badge = Badge(level: string, color: string, bg: string)

  datatype Icon = CheckCircle | AlertTriangle

  /** A maintainability badge carries an icon instead of a background. */
  datatype MaintainabilityBadge = MaintainabilityBadge(level: string, color: string, icon: Icon)

  /** `getComplexityLevel`. */
  function GetComplexityLevel(complexity: int): Badge
  {
    if complexity <= 5 then Badge("Low", "text-green-600", "bg-green-100 dark:bg-green-900/20")
    else if complexity <= 10 then Badge("Moderate", "text-yellow-600", "bg-yellow-100 dark:bg-yellow-900/20")
    else if complexity <= 20 then Badge("High", "text-orange-600", "bg-orange-100 dark:bg-orange-900/20")
    else Badge("Very High", "text-red-600", "bg-red-100 dark:bg-red-900/20")
  }

  /** The complexity levels from best to worst. */
  const ComplexityLevels := ["Low", "Moderate", "High", "Very High"]

  /** The position of a complexity level in `ComplexityLevels`. */
  function ComplexityRank(level: string): (rank: nat)
    ensures rank <= 4
    ensures rank < 4 ==> ComplexityLevels[rank] == level
  {
    if level == "Low" then 0
    else if level == "Moderate" then 1
    else if level == "High" then 2
    else if level == "Very High" then 3
    else 4
  }

  /** The complexity thresholds: at most 5 is low, 6 to 10 moderate, 11 to 20
      high and above 20 very high. */
  lemma ComplexityLevelThresholds(complexity: int)
    ensures GetComplexityLevel(complexity).level == "Low" <==> complexity <= 5
    ensures GetComplexityLevel(complexity).level == "Moderate" <==> 5 < complexity <= 10
    ensures GetComplexityLevel(complexity).level == "High" <==> 10 < complexity <= 20
    ensures GetComplexityLevel(complexity).level == "Very High" <==> 20 < complexity
  {
  }

  /** A larger complexity never gets a better level. */
  lemma ComplexityLevelMonotone(c1: int, c2: int)
    requires c1 <= c2
    ensures ComplexityRank(GetComplexityLevel(c1).level) <= ComplexityRank(GetComplexityLevel(c2).level)
    ensures ComplexityRank(GetComplexityLevel(c2).level) < 4
  {
  }

  /** `getMaintainabilityLevel`. */
  function GetMaintainabilityLevel(index: int): MaintainabilityBadge
  {
    if index >= 80 then MaintainabilityBadge("Excellent", "text-green-600", CheckCircle)
    else if index >= 60 then MaintainabilityBadge("Good", "text-blue-600", CheckCircle)
    else if index >= 40 then MaintainabilityBadge("Fair", "text-yellow-600", AlertTriangle)
    else MaintainabilityBadge("Poor", "text-red-600", AlertTriangle)
  }

  /** The index thresholds, and the check mark for the two upper levels. */
  lemma MaintainabilityLevelThresholds(index: int)
    ensures GetMaintainabilityLevel(index).level == "Excellent" <==> index >= 80
    ensures GetMaintainabilityLevel(index).level == "Good" <==> 60 <= index < 80
    ensures GetMaintainabilityLevel(index).level == "Fair" <==> 40 <= index < 60
    ensures GetMaintainabilityLevel(index).level == "Poor" <==> index < 40
    ensures GetMaintainabilityLevel(index).icon == CheckCircle <==> index >= 60
  {
  }

  /** The Big-O classes the view knows, best first, and their levels. */
  const BigOClasses := ["O(1)", "O(log n)", "O(n)", "O(n log n)", "O(n\U{00B2})", "O(n\U{00B3})", "O(2\U{207F})"]
  const BigOLevels := ["Excellent", "Very Good", "Good", "Fair", "Poor", "Very Poor", "Terrible"]

  /** `getBigOComplexityLevel`. */
  function GetBigOComplexityLevel(complexity: string): Badge
  {
    if complexity == "O(1)" then Badge("Excellent", "text-green-600", "bg-green-100 dark:bg-green-900/20")
    else if complexity == "O(log n)" then Badge("Very Good", "text-blue-600", "bg-blue-100 dark:bg-blue-900/20")
    else if complexity == "O(n)" then Badge("Good", "text-yellow-600", "bg-yellow-100 dark:bg-yellow-900/20")
    else if complexity == "O(n log n)" then Badge("Fair", "text-orange-600", "bg-orange-100 dark:bg-orange-900/20")
    else if complexity == "O(n\U{00B2})" then Badge("Poor", "text-red-600", "bg-red-100 dark:bg-red-900/20")
    else if complexity == "O(n\U{00B3})" then Badge("Very Poor", "text-red-700", "bg-red-200 dark:bg-red-900/30")
    else if complexity == "O(2\U{207F})" then Badge("Terrible", "text-red-800", "bg-red-300 dark:bg-red-900/40")
    else Badge("Unknown", "text-gray-600", "bg-gray-100 dark:bg-gray-900/20")
  }

  /** The `i`-th class gets the `i`-th level, and every other string "Unknown". */
  lemma BigOLevelTable(complexity: string)
    ensures forall i :: 0 <= i < |BigOClasses| ==> GetBigOComplexityLevel(BigOClasses[i]).level == BigOLevels[i]
    ensures complexity !in BigOClasses ==> GetBigOComplexityLevel(complexity).level == "Unknown"
  {
  }

  /** The seven levels are pairwise different and none of them is "Unknown". */
  lemma BigOLevelsDistinct()
    ensures forall i, j :: 0 <= i < j < |BigOLevels| ==> BigOLevels[i] != BigOLevels[j]
    ensures "Unknown" !in BigOLevels
  {
    var l := BigOLevels;
    assert l[0][0] == 'E' && l[1][5] == 'G' && l[2][0] == 'G' && l[3][0] == 'F';
    assert l[4][0] == 'P' && l[5][5] == 'P' && l[6][0] == 'T';
  }

  /** Every time and space class the Big-O analyzer reports has a known level. */
  lemma EngineClassesHaveLevels(t: string, s: string)
    requires BigO.ReportedTime(t) && BigO.ReportedSpace(s)
    ensures GetBigOComplexityLevel(t).level != "Unknown"
    ensures GetBigOComplexityLevel(s).level != "Unknown"
  {
  }
}
