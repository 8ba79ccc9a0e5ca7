/** The job-match dashboard (`JobMatchResults`): match tiers and messages, the chart data
    with defaults, and which optional cards and lines are shown. */
module JobMatchResults {
  import opened Common
  import opened Tiers

  /** The fields of the reply the component reads. A field the reply lacks is None. */
  datatype MatchReport = MatchReport(
    matchPercentage: real,
    jobTitle: Option<string>,
    roleAlignment: Option<real>,
    experienceMatch: Option<real>)

  /** One bar of a chart: its label and its value (the colour is left out). */
  datatype Entry = Entry(name: string, value: real)

  function GetMatchColor(score: real): (c: string)
    ensures c == TextClass(TierOf(score))
  {
    if score >= 80.0 then "text-green-600 dark:text-green-400"
    else if score >= 60.0 then "text-yellow-600 dark:text-yellow-400"
    else "text-red-600 dark:text-red-400"
  }

  function GetMatchBg(score: real): (c: string)
    ensures c == BgClass(TierOf(score))
  {
    if score >= 80.0 then "bg-green-100 dark:bg-green-900/20"
    else if score >= 60.0 then "bg-yellow-100 dark:bg-yellow-900/20"
    else "bg-red-100 dark:bg-red-900/20"
  }

  /** The colour and the background of the match card belong to the same tier. */
  lemma MatchColorAgreesWithBg(a: real, b: real)
    ensures GetMatchColor(a) == GetMatchColor(b) <==> GetMatchBg(a) == GetMatchBg(b)
  {
    if GetMatchColor(a) == GetMatchColor(b) { TextClassInjective(TierOf(a), TierOf(b)); }
    if GetMatchBg(a) == GetMatchBg(b) { BgClassInjective(TierOf(a), TierOf(b)); }
  }

  const MatchHigh: string := "Excellent match! You're highly qualified for this position."
  const MatchMid: string := "Good match with room for improvement."
  const MatchLow: string := "Significant gaps exist. Consider skill development."

  /** The sentence under the overall match score. */
  function MatchMessage(score: real): (t: string)
    ensures t == Choose(TierOf(score), MatchHigh, MatchMid, MatchLow)
  {
    if score >= 80.0 then MatchHigh
    else if score >= 60.0 then MatchMid
    else MatchLow
  }

  /** The bar chart: `experienceMatch || 0` and `roleAlignment || 0` default to 0. */
  function MatchData(r: MatchReport): (d: seq<Entry>)
    ensures |d| == 3
    ensures d[0] == Entry("Match Score", r.matchPercentage)
    ensures d[1].name == "Experience" && d[2].name == "Role Fit"
    ensures r.experienceMatch.None? ==> d[1].value == 0.0
    ensures r.experienceMatch.Some? ==> d[1].value == r.experienceMatch.value
    ensures r.roleAlignment.None? ==> d[2].value == 0.0
    ensures r.roleAlignment.Some? ==> d[2].value == r.roleAlignment.value
  {
    [Entry("Match Score", r.matchPercentage),
     Entry("Experience", NumberOr(r.experienceMatch, 0.0)),
     Entry("Role Fit", NumberOr(r.roleAlignment, 0.0))]
  }

  /** The radial chart: the match percentage alone. */
  function RadialData(r: MatchReport): seq<Entry> {
    [Entry("Match", r.matchPercentage)]
  }

  /** `experienceMatch !== undefined`: the Experience card. */
  predicate ShowsExperienceCard(r: MatchReport) {
    r.experienceMatch.Some?
  }

  /** `roleAlignment !== undefined`: the Role Fit card. */
  predicate ShowsRoleFitCard(r: MatchReport) {
    r.roleAlignment.Some?
  }

  /** `jobTitle && ...`: the Position line. */
  predicate ShowsPosition(r: MatchReport) {
    TruthyString(r.jobTitle)
  }

  /** A card appears exactly when its field is present, so a score of 0 still gets a card,
      while the chart draws a missing field and a 0 alike. */
  lemma CardsFollowPresence(r: MatchReport)
    ensures r.experienceMatch == Some(0.0) ==> ShowsExperienceCard(r) && MatchData(r)[1].value == 0.0
    ensures r.experienceMatch.None? ==> !ShowsExperienceCard(r) && MatchData(r)[1].value == 0.0
    ensures r.roleAlignment == Some(0.0) ==> ShowsRoleFitCard(r) && MatchData(r)[2].value == 0.0
    ensures r.roleAlignment.None? ==> !ShowsRoleFitCard(r) && MatchData(r)[2].value == 0.0
  {
  }
}
