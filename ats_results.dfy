/** The ATS compatibility report (`ATSResults`): score tiers, the chart data with defaults
    for missing sub-scores, the pass/risk split and the rating text. */
module ATSResults {
  import opened Common
  import opened Tiers

  /** A `{ score, ... }` sub-report; only its score is displayed as a number. */
  datatype SubReport = SubReport(score: Option<real>)

  /** The fields of the reply the component reads. A field the reply lacks is None. */
  datatype Report = Report(
    atsScore: real,
    overallRating: Option<string>,
    passabilityScore: Option<real>,
    formatting: Option<SubReport>,
    keywords: Option<SubReport>,
    sections: Option<SubReport>)

  /** One bar or slice of a chart: its label and its value (the colour is left out). */
  datatype Entry = Entry(name: string, value: real)

  datatype Icon = CheckCircle | AlertTriangle | XCircle

  function GetScoreColor(score: real): (c: string)
    ensures c == TextClass(TierOf(score))
  {
    if score >= 80.0 then "text-green-600 dark:text-green-400"
    else if score >= 60.0 then "text-yellow-600 dark:text-yellow-400"
    else "text-red-600 dark:text-red-400"
  }

  function GetScoreBg(score: real): (c: string)
    ensures c == BgClass(TierOf(score))
  {
    if score >= 80.0 then "bg-green-100 dark:bg-green-900/20"
    else if score >= 60.0 then "bg-yellow-100 dark:bg-yellow-900/20"
    else "bg-red-100 dark:bg-red-900/20"
  }

  function GetRatingIcon(score: real): (i: Icon)
    ensures i == Choose(TierOf(score), CheckCircle, AlertTriangle, XCircle)
  {
    if score >= 80.0 then CheckCircle else if score >= 60.0 then AlertTriangle else XCircle
  }

  /** The colour, the background and the icon always pick the same tier. */
  lemma TierFunctionsAgree(a: real, b: real)
    ensures GetScoreColor(a) == GetScoreColor(b) <==> GetScoreBg(a) == GetScoreBg(b)
    ensures GetScoreColor(a) == GetScoreColor(b) <==> GetRatingIcon(a) == GetRatingIcon(b)
  {
    if GetScoreColor(a) == GetScoreColor(b) { TextClassInjective(TierOf(a), TierOf(b)); }
    if GetScoreBg(a) == GetScoreBg(b) { BgClassInjective(TierOf(a), TierOf(b)); }
  }

  /** `formatting?.score || 0`. */
  function SubScore(s: Option<SubReport>): (v: real)
    ensures s.None? || s.value.score.None? ==> v == 0.0
    ensures s.Some? && s.value.score.Some? ==> v == s.value.score.value
  {
    if s.None? then 0.0 else NumberOr(s.value.score, 0.0)
  }

  /** The bar chart: the ATS score and the three sub-scores, a missing one shown as 0. */
  function ScoreData(r: Report): (d: seq<Entry>)
    ensures |d| == 4
    ensures d[0].name == "ATS Score" && d[1].name == "Formatting"
            && d[2].name == "Keywords" && d[3].name == "Structure"
    ensures d[0].value == r.atsScore
    ensures r.formatting.None? || r.formatting.value.score.None? ==> d[1].value == 0.0
    ensures r.formatting.Some? && r.formatting.value.score.Some? ==> d[1].value == r.formatting.value.score.value
    ensures r.keywords.None? || r.keywords.value.score.None? ==> d[2].value == 0.0
    ensures r.keywords.Some? && r.keywords.value.score.Some? ==> d[2].value == r.keywords.value.score.value
    ensures r.sections.None? || r.sections.value.score.None? ==> d[3].value == 0.0
    ensures r.sections.Some? && r.sections.value.score.Some? ==> d[3].value == r.sections.value.score.value
  {
    [Entry("ATS Score", r.atsScore), Entry("Formatting", SubScore(r.formatting)),
     Entry("Keywords", SubScore(r.keywords)), Entry("Structure", SubScore(r.sections))]
  }

  /** `passabilityScore || atsScore`: a missing or zero passability falls back to the ATS score. */
  function PassRate(r: Report): (p: real)
    ensures r.passabilityScore.Some? && r.passabilityScore.value != 0.0 ==> p == r.passabilityScore.value
    ensures r.passabilityScore == Some(0.0) ==> p == r.atsScore
    ensures r.passabilityScore.None? ==> p == r.atsScore
  {
    NumberOr(r.passabilityScore, r.atsScore)
  }

  /** The pie chart: the pass rate and the remaining risk. */
  function PassData(r: Report): (d: seq<Entry>)
    ensures |d| == 2
    ensures d[0] == Entry("Pass Rate", PassRate(r)) && d[1].name == "Risk"
    ensures d[0].value + d[1].value == 100.0
  {
    [Entry("Pass Rate", PassRate(r)), Entry("Risk", 100.0 - PassRate(r))]
  }

  /** The rating next to the score: the reply's own rating when it is a non-empty string,
      otherwise the tier's word. */
  function RatingText(r: Report): (t: string)
    ensures TruthyString(r.overallRating) ==> t == r.overallRating.value
    ensures !TruthyString(r.overallRating) ==>
              t == Choose(TierOf(r.atsScore), "Excellent", "Good", "Needs Improvement")
  {
    if TruthyString(r.overallRating) then r.overallRating.value
    else if r.atsScore >= 80.0 then "Excellent"
    else if r.atsScore >= 60.0 then "Good"
    else "Needs Improvement"
  }

  const VerdictHigh: string := "Your resume is highly compatible with ATS systems"
  const VerdictMid: string := "Your resume should pass most ATS systems with minor improvements"
  const VerdictLow: string := "Your resume may be rejected by ATS systems - significant improvements needed"

  /** The sentence under the score. */
  function VerdictText(atsScore: real): (t: string)
    ensures t == Choose(TierOf(atsScore), VerdictHigh, VerdictMid, VerdictLow)
  {
    if atsScore >= 80.0 then VerdictHigh
    else if atsScore >= 60.0 then VerdictMid
    else VerdictLow
  }
}
