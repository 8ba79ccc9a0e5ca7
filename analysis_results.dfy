/** The résumé analysis dashboard (`AnalysisResults`): score tiers, the pass pie and the
    tier labels of the two score cards. */
module AnalysisResults {
  import opened Common
  import opened Tiers

  /** The two scores of an analysis the dashboard bands and charts. */
  datatype Analysis = Analysis(atsScore: real, skillMatch: real)

  /** One bar or slice of a chart: its label and its value (the colour is left out). */
  datatype Entry = Entry(name: string, value: real)

  function GetScoreColor(score: real): (c: string)
    ensures c == TextClass(TierOf(score))
  {
    if score >= 80.0 then "text-green-600 dark:text-green-400"
    else if score >= 60.0 then "text-yellow-600 dark:text-yellow-400"
    else "text-red-600 dark:text-red-400"
  }

  function GetScoreBg(score: real): (c: string)
    ensures c == BgClass(TierOf(score))
  {
    if score >= 80.0 then "bg-green-100 dark:bg-green-900/20"
    else if score >= 60.0 then "bg-yellow-100 dark:bg-yellow-900/20"
    else "bg-red-100 dark:bg-red-900/20"
  }

  /** A card's text colour and its background always belong to the same tier. */
  lemma ColorAgreesWithBg(a: real, b: real)
    ensures GetScoreColor(a) == GetScoreColor(b) <==> GetScoreBg(a) == GetScoreBg(b)
  {
    if GetScoreColor(a) == GetScoreColor(b) { TextClassInjective(TierOf(a), TierOf(b)); }
    if GetScoreBg(a) == GetScoreBg(b) { BgClassInjective(TierOf(a), TierOf(b)); }
  }

  /** The bar chart: the two scores as they are. */
  function ScoreData(a: Analysis): seq<Entry> {
    [Entry("ATS Score", a.atsScore), Entry("Skill Match", a.skillMatch)]
  }

  /** The pie: the part of the ATS score passed and the part remaining. */
  function PieData(a: Analysis): (d: seq<Entry>)
    ensures |d| == 2 && d[0] == Entry("Passed", a.atsScore) && d[1].name == "Remaining"
    ensures d[0].value + d[1].value == 100.0
  {
    [Entry("Passed", a.atsScore), Entry("Remaining", 100.0 - a.atsScore)]
  }

  /** The word under the ATS score. */
  function AtsLabel(score: real): (t: string)
    ensures t == Choose(TierOf(score), "Excellent", "Good", "Needs Improvement")
  {
    if score >= 80.0 then "Excellent" else if score >= 60.0 then "Good" else "Needs Improvement"
  }

  /** The words under the skill match. */
  function SkillLabel(score: real): (t: string)
    ensures t == Choose(TierOf(score), "Excellent Match", "Good Match", "Room for Improvement")
  {
    if score >= 80.0 then "Excellent Match"
    else if score >= 60.0 then "Good Match"
    else "Room for Improvement"
  }
}
