/**
 * The render decisions of frontend/src/pages/DashboardPage.jsx: which of
 * the three views is shown, and the colour band of the score.
 */
module DashboardPage {
  import opened Wrappers
  import opened JsString
  import opened Json
  import AnalysisSchema

  datatype ScoreColor = Emerald | Yellow | Red

  function ColorClass(c: ScoreColor): string {
    match c
    case Emerald => "text-emerald-300"
    case Yellow => "text-yellow-300"
    case Red => "text-red-300"
  }

  /** The band of a numeric score. */
  function Band(score: int): ScoreColor {
    if score >= 80 then Emerald else if score >= 60 then Yellow else Red
  }

  /**
   * The number JavaScript compares when it evaluates `score >= 80`: null is
   * 0, booleans 0 or 1, strings and arrays are read as numerals, and
   * `undefined` and objects are NaN (None); the values for which the
   * conversion throws are those of `ToStringThrows`.
   */
  function ToNumber(v: Value): Option<int> {
    match v
    case None => None
    case Some(JNull) => Some(0)
    case Some(JBool(b)) => Some(if b then 1 else 0)
    case Some(JNum(n)) => Some(n)
    case Some(JString(s)) => StringToInteger(s)
    case Some(JArray(_)) => StringToInteger(JsToString(v.value))
    case Some(JObject(_)) => None
  }

  /** `scoreColor`: every comparison with NaN is false, so NaN falls in the red band. */
  function ScoreColorOf(score: Value): ScoreColor {
    var n := ToNumber(score);
    if n.Some? then Band(n.value) else Red
  }

  /** What the page renders; the report shows the analysis' goal, score, summary and missing skills. */
  datatype View =
    | LoadingView
    | NoAnalysisView
    | ReportView(careerGoal: Value, resumeScore: Value, color: ScoreColor, summary: Value, missingSkills: seq<Json>)
    | RenderFailed

  /**
   * A value React can render as a child: `undefined`, `null`, a boolean, a
   * number, a string, or an array of such values. A plain object makes the
   * render throw.
   */
  predicate Renderable(v: Value) {
    v.None? || RenderableJson(v.value)
  }

  predicate RenderableJson(v: Json) {
    match v
    case JObject(_) => false
    case JArray(items) => forall i :: 0 <= i < |items| ==> RenderableJson(items[i])
    case _ => true
  }

  /**
   * The report of a truthy analysis renders: comparing the score does not
   * throw, `missingSkills.map` exists, and every value placed in the page
   * (goal, score, summary, each skill) is renderable.
   */
  predicate ReportRenders(analysisData: Value) {
    var score := Get(analysisData, "resumeScore");
    var skills := Get(analysisData, "missingSkills");
    && !(score.Some? && ToStringThrows(score.value))
    && skills.Some? && skills.value.JArray?
    && Renderable(Get(analysisData, "careerGoal")) && Renderable(score) && Renderable(Get(analysisData, "summary"))
    && (forall i :: 0 <= i < |skills.value.items| ==> RenderableJson(skills.value.items[i]))
  }

  function SelectView(analysisData: Value, isAuthReady: bool, isLoading: bool): View {
    if !isAuthReady || isLoading then LoadingView
    else if !Truthy(analysisData) then NoAnalysisView
    else if !ReportRenders(analysisData) then RenderFailed
    else
      var score := Get(analysisData, "resumeScore");
      ReportView(Get(analysisData, "careerGoal"), score, ScoreColorOf(score), Get(analysisData, "summary"),
                 Get(analysisData, "missingSkills").value.items)
  }

  /** The three bands are exclusive and cover every score: 80 and up, 60 to 79, below 60. */
  lemma BandsPartitionScores(score: int)
    ensures Band(score) == Emerald <==> score >= 80
    ensures Band(score) == Yellow <==> 60 <= score < 80
    ensures Band(score) == Red <==> score < 60
  {
  }

  /** A numeric score is coloured by its band; an absent score is red. */
  lemma NumericScoreColor(score: int)
    ensures ScoreColorOf(Some(JNum(score))) == Band(score)
    ensures ScoreColorOf(None) == Red
  {
  }

  /** A score that arrives as the decimal string of a number is coloured as that number. */
  lemma NumeralScoreColor(score: nat)
    ensures ScoreColorOf(Some(JString(NatToString(score)))) == Band(score)
  {
    StringToIntegerOfNatToString(score);
  }

  /** The loading view wins whenever auth is not ready or data is loading. */
  lemma LoadingTakesPrecedence(analysisData: Value, isAuthReady: bool, isLoading: bool)
    ensures SelectView(analysisData, isAuthReady, isLoading) == LoadingView <==> !isAuthReady || isLoading
  {
  }

  /**
   * Once loaded, a falsy analysis gives "No Analysis Found"; a truthy one
   * gives the report, coloured by its score, when it renders, and a failed
   * render otherwise.
   */
  lemma LoadedViews(analysisData: Value)
    ensures SelectView(analysisData, true, false) == NoAnalysisView <==> !Truthy(analysisData)
    ensures SelectView(analysisData, true, false).ReportView? <==> Truthy(analysisData) && ReportRenders(analysisData)
    ensures SelectView(analysisData, true, false) == RenderFailed <==> Truthy(analysisData) && !ReportRenders(analysisData)
    ensures SelectView(analysisData, true, false).ReportView? ==>
      && SelectView(analysisData, true, false).color == ScoreColorOf(Get(analysisData, "resumeScore"))
      && Some(JArray(SelectView(analysisData, true, false).missingSkills)) == Get(analysisData, "missingSkills")
  {
  }

  /**
   * An analysis that has the shape of the analysis schema, with a
   * renderable goal (the string the upload page sends), shows the report.
   */
  lemma ConformingAnalysisRenders(v: Json)
    requires AnalysisSchema.IsAnalysisReply(v)
    requires Renderable(Get(Some(v), "careerGoal"))
    ensures SelectView(Some(v), true, false).ReportView?
  {
    var skills := v.fields["missingSkills"].items;
    assert forall i :: 0 <= i < |skills| ==> skills[i].JString?;
  }
}
