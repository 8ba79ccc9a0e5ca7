/** The interview performance report (`MockTestResults`): the letter grade, score tiers, the
    category chart data built from `categoryScores` and the radar and bar clamps. */
module MockTestResults {
  import opened Common
  import opened Tiers

  datatype Grade = APlus | A | B | C | D {
    /** The text shown for the grade. */
    function Label(): string {
      match this
      case APlus => "A+"
      case A => "A"
      case B => "B"
      case C => "C"
      case D => "D"
    }

    /** 4 for A+ down to 0 for D. */
    function Rank(): nat {
      match this
      case APlus => 4
      case A => 3
      case B => 2
      case C => 1
      case D => 0
    }
  }

  /** One category bar: its label and its score. */
  datatype CategoryEntry = CategoryEntry(name: string, score: real)

  /** One radar point: its category and its score, at most 100. */
  datatype RadarPoint = RadarPoint(category: string, score: real)

  function GetScoreColor(score: real): (c: string)
    ensures c == TextClass(TierOf(score))
  {
    if score >= 80.0 then "text-green-600 dark:text-green-400"
    else if score >= 60.0 then "text-yellow-600 dark:text-yellow-400"
    else "text-red-600 dark:text-red-400"
  }

  function GetScoreBg(score: real): (c: string)
    ensures c == BgClass(TierOf(score))
  {
    if score >= 80.0 then "bg-green-100 dark:bg-green-900/20"
    else if score >= 60.0 then "bg-yellow-100 dark:bg-yellow-900/20"
    else "bg-red-100 dark:bg-red-900/20"
  }

  function GetGrade(score: real): (g: Grade)
    ensures g == APlus <==> score >= 90.0
    ensures g == A <==> 80.0 <= score < 90.0
    ensures g == B <==> 70.0 <= score < 80.0
    ensures g == C <==> 60.0 <= score < 70.0
    ensures g == D <==> score < 60.0
  {
    if score >= 90.0 then APlus
    else if score >= 80.0 then A
    else if score >= 70.0 then B
    else if score >= 60.0 then C
    else D
  }

  /** A higher score never earns a lower grade. */
  lemma GradeMonotone(a: real, b: real)
    requires a <= b
    ensures GetGrade(a).Rank() <= GetGrade(b).Rank()
  {
  }

  /** The grade is A or A+ exactly when the score is drawn in green, and C or better exactly
      when it is not drawn in red. */
  lemma GradeAgreesWithColor(score: real)
    ensures GetGrade(score).Rank() >= 3 <==> GetScoreColor(score) == TextClass(Green)
    ensures GetGrade(score).Rank() >= 1 <==> GetScoreColor(score) != TextClass(Red)
  {
    if GetScoreColor(score) == TextClass(Green) { TextClassInjective(TierOf(score), Green); }
    if GetScoreColor(score) == TextClass(Red) { TextClassInjective(TierOf(score), Red); }
  }

  const PerformanceHigh: string := "Outstanding performance! You're well-prepared for this role."
  const PerformanceMid: string := "Good performance with room for improvement."
  const PerformanceLow: string := "Needs significant improvement. Keep practicing!"

  /** The sentence next to the grade. */
  function PerformanceMessage(score: real): (t: string)
    ensures t == Choose(TierOf(score), PerformanceHigh, PerformanceMid, PerformanceLow)
  {
    if score >= 80.0 then PerformanceHigh
    else if score >= 60.0 then PerformanceMid
    else PerformanceLow
  }

  /** `c.toUpperCase()` on one character, for the ASCII letters. */
  function UpperChar(c: char): (u: char)
    ensures 'a' <= c <= 'z' ==> 'A' <= u <= 'Z' && u as int == c as int - 32
    ensures !('a' <= c <= 'z') ==> u == c
  {
    if 'a' <= c <= 'z' then (c as int - 32) as char else c
  }

  /** `key.charAt(0).toUpperCase() + key.slice(1)`. */
  function Capitalize(key: string): (r: string)
    ensures |r| == |key|
    ensures key != [] ==> r[0] == UpperChar(key[0]) && r[1..] == key[1..]
  {
    if key == [] then [] else [UpperChar(key[0])] + key[1..]
  }

  /** The four categories and multipliers used when the reply has no `categoryScores`. */
  function FallbackScores(overallScore: real): (d: seq<CategoryEntry>)
    ensures |d| == 4
    ensures d[0].name == "Communication" && d[1].name == "Technical"
            && d[2].name == "Problem Solving" && d[3].name == "Leadership"
    ensures d[0].score == overallScore * 0.9 && d[1].score == overallScore * 1.1
            && d[2].score == overallScore * 0.95 && d[3].score == overallScore * 0.85
  {
    [CategoryEntry("Communication", overallScore * 0.9),
     CategoryEntry("Technical", overallScore * 1.1),
     CategoryEntry("Problem Solving", overallScore * 0.95),
     CategoryEntry("Leadership", overallScore * 0.85)]
  }

  /** The category bars: one per `categoryScores` entry, in entry order, its key capitalised;
      without `categoryScores`, the four fallback categories. */
  function ScoreData(overallScore: real, categoryScores: Option<seq<(string, real)>>): (d: seq<CategoryEntry>)
    ensures categoryScores.Some? ==>
              |d| == |categoryScores.value|
              && forall i :: 0 <= i < |d| ==>
                   d[i] == CategoryEntry(Capitalize(categoryScores.value[i].0), categoryScores.value[i].1)
    ensures categoryScores.None? ==> d == FallbackScores(overallScore)
  {
    match categoryScores
    case Some(entries) =>
      seq(|entries|, i requires 0 <= i < |entries| => CategoryEntry(Capitalize(entries[i].0), entries[i].1))
    case None => FallbackScores(overallScore)
  }

  /** The radar points: each category's score capped at 100. */
  function RadarData(d: seq<CategoryEntry>): (r: seq<RadarPoint>)
    ensures |r| == |d|
    ensures forall i :: 0 <= i < |d| ==>
              r[i].category == d[i].name && r[i].score <= 100.0 && r[i].score <= d[i].score
              && (r[i].score == d[i].score || r[i].score == 100.0)
    ensures forall i :: 0 <= i < |d| && d[i].score <= 100.0 ==> r[i].score == d[i].score
  {
    seq(|d|, i requires 0 <= i < |d| => RadarPoint(d[i].name, Min(d[i].score, 100.0)))
  }

  /** The width of a category's progress bar, in percent of the track: capped at 100. */
  function BarWidth(score: real): (w: real)
    ensures w <= 100.0 && w <= score
    ensures score <= 100.0 ==> w == score
    ensures score > 100.0 ==> w == 100.0
  {
    Min(score, 100.0)
  }
}
