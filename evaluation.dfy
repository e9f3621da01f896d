// Scoring one experiment against its fault scenario: the detection and
// localization checks, the reading of the report's final_report dict with
// its defaults, and the daily token guard in front of the LLM judge. The
// judge and the day's token usage are parameters.

module Evaluation {
  import opened Values

  const TokenDailyLimit: int := 240000
  const LimitError: string := "ERROR: Token usage exceeded daily limit"
  const JudgeErrorPrefix: string := "ERROR: LLM evaluation failed: "

  /** `d.get(key, default)` */
  function GetOr(d: map<string, Value>, key: string, default: Value): (r: Value)
    ensures key in d ==> r == d[key]
    ensures key !in d ==> r == default
  {
    if key in d then d[key] else default
  }

  /** `evaluate_detection`: the verdict matches the ground truth "the scenario has a target". */
  function EvaluateDetection(scenario: map<string, Value>, detection: Value): (correct: bool)
    ensures correct <==> EqualsBool(detection, Truthy(GetOr(scenario, "target", Null)))
  {
    var target := GetOr(scenario, "target", Null);
    var groundTruth := if Truthy(target) then true else false;
    detection == Bool(groundTruth) || detection == Num(if groundTruth then 1 else 0)
  }

  /**
   * A scenario without a fault (its target missing or falsy) is detected
   * correctly exactly by a verdict equal to `False`: `False` itself or `0`.
   */
  lemma {:induction false} NoFaultDetection(scenario: map<string, Value>, detection: Value)
    requires !Truthy(GetOr(scenario, "target", Null))
    ensures EvaluateDetection(scenario, detection) <==> detection == Bool(false) || detection == Num(0)
    ensures !EvaluateDetection(scenario, Bool(true))
  {
  }

  /**
   * `evaluate_localization`. Without a target (missing or None) only an
   * absent or empty localization is correct; with a target, a non-string
   * localization is wrong and a string one is correct exactly when it
   * contains the target. A target that is not a string cannot be searched
   * for in a string: that is the `TypeError` the `Err` stands for.
   */
  function EvaluateLocalization(scenario: map<string, Value>, localization: Value): (r: Result<bool>)
    ensures GetOr(scenario, "target", Null) == Null ==> r == Ok(localization == Null || localization == Str(""))
    ensures GetOr(scenario, "target", Null) != Null && !localization.Str? ==> r == Ok(false)
    ensures GetOr(scenario, "target", Null).Str? && localization.Str? ==>
              r == Ok(Contains(localization.s, GetOr(scenario, "target", Null).s))
    ensures r.Err? <==> localization.Str? && GetOr(scenario, "target", Null) != Null && !GetOr(scenario, "target", Null).Str?
  {
    var target := GetOr(scenario, "target", Null);
    if target == Null then Ok(localization == Null || localization == Str(""))
    else if !localization.Str? then Ok(false)
    else if !target.Str? then Err("'in <string>' requires string as left operand")
    else Ok(Contains(localization.s, target.s))
  }

  /** An empty target is found in every string localization. */
  lemma {:induction false} EmptyTargetMatchesAll(scenario: map<string, Value>, localization: string)
    requires "target" in scenario && scenario["target"] == Str("")
    ensures EvaluateLocalization(scenario, Str(localization)) == Ok(true)
  {
    EmptyContained(localization);
  }

  /** A localization that names the target among other resources is correct. */
  lemma {:induction false} TargetInListMatches(scenario: map<string, Value>, before: string, after: string)
    requires "target" in scenario && scenario["target"].Str?
    ensures EvaluateLocalization(scenario, Str(before + scenario["target"].s + after)) == Ok(true)
  {
    var t := scenario["target"].s;
    var s := before + t + after;
    assert s[|before|..|before| + |t|] == t;
    ContainsWitness(s, t, |before|);
  }

  /** The reported localization as a string: a list of strings joined by ", ", anything else "". */
  function LocalizationString(localization: Value): (r: Result<string>)
    ensures !localization.List? ==> r == Ok("")
    ensures localization.List? ==>
              (r.Ok? <==> forall i :: 0 <= i < |localization.items| ==> localization.items[i].Str?)
    ensures localization == List([]) ==> r == Ok("")
  {
    if !localization.List? then Ok("")
    else if forall i :: 0 <= i < |localization.items| ==> localization.items[i].Str? then
      Ok(Join(", ", seq(|localization.items|, i requires 0 <= i < |localization.items| => localization.items[i].s)))
    else Err("sequence item: expected str instance")
  }

  /**
   * A localization listing the target among other resources, as strings,
   * joins into a string that contains it, so it is correct.
   */
  lemma {:induction false} ListedTargetLocalized(scenario: map<string, Value>, items: seq<Value>, i: nat)
    requires "target" in scenario && scenario["target"].Str?
    requires i < |items| && items[i] == scenario["target"]
    requires forall k :: 0 <= k < |items| ==> items[k].Str?
    ensures LocalizationString(List(items)).Ok?
    ensures EvaluateLocalization(scenario, Str(LocalizationString(List(items)).value)) == Ok(true)
  {
    var names := seq(|items|, k requires 0 <= k < |items| => items[k].s);
    assert LocalizationString(List(items)) == Ok(Join(", ", names));
    var before, after := JoinHasPart(", ", names, i);
    TargetInListMatches(scenario, before, after);
  }

  /** The score and motivation of `evaluate_rca_analysis`. */
  datatype RcaVerdict = RcaVerdict(score: Option<int>, motivation: string)

  /**
   * `evaluate_rca_analysis`: over the daily limit the fixed error, without
   * asking the judge; otherwise the judge's score and reasoning, or the
   * failure text when the judge fails.
   */
  function EvaluateRcaAnalysis(groundTruth: Value, analysis: Value, tokensUsedToday: int,
                               judge: (Value, Value) -> Result<RcaVerdict>): (v: RcaVerdict)
    ensures tokensUsedToday > TokenDailyLimit ==> v == RcaVerdict(None, LimitError)
    ensures tokensUsedToday <= TokenDailyLimit && judge(groundTruth, analysis).Ok? ==> v == judge(groundTruth, analysis).value
    ensures tokensUsedToday <= TokenDailyLimit && judge(groundTruth, analysis).Err? ==>
              v.score.None? && IsPrefix(JudgeErrorPrefix, v.motivation)
  {
    if tokensUsedToday > TokenDailyLimit then RcaVerdict(None, LimitError)
    else match judge(groundTruth, analysis)
      case Ok(verdict) => verdict
      case Err(e) => RcaVerdict(None, JudgeErrorPrefix + e)
  }

  /** Over the limit the verdict does not depend on the judge at all. */
  lemma {:induction false} GuardSkipsJudge(groundTruth: Value, analysis: Value, tokensUsedToday: int,
                                            judge1: (Value, Value) -> Result<RcaVerdict>,
                                            judge2: (Value, Value) -> Result<RcaVerdict>)
    requires tokensUsedToday > TokenDailyLimit
    ensures EvaluateRcaAnalysis(groundTruth, analysis, tokensUsedToday, judge1)
         == EvaluateRcaAnalysis(groundTruth, analysis, tokensUsedToday, judge2)
  {
  }

  /** `report.get("final_report", {})`, which must be a dict for the later `.get` calls. */
  function FinalReportOf(report: map<string, Value>): (r: Result<map<string, Value>>)
    ensures "final_report" !in report ==> r == Ok(map[])
    ensures r.Ok? && "final_report" in report ==> report["final_report"] == Obj(r.value)
    ensures r.Err? <==> "final_report" in report && !report["final_report"].Obj?
  {
    var v := GetOr(report, "final_report", Obj(map[]));
    if v.Obj? then Ok(v.fields) else Err("'final_report' is not a dict")
  }

  function ScoreValue(score: Option<int>): Value
  {
    if score.Some? then Num(score.value) else Null
  }

  /**
   * `evaluate_experiment`: the detection verdict (default `False`), the
   * localization check on the joined localization (default empty list), and
   * the judge's verdict on the root cause (default ""), under exactly four
   * keys.
   */
  function EvaluateExperiment(scenario: map<string, Value>, report: map<string, Value>, tokensUsedToday: int,
                              judge: (Value, Value) -> Result<RcaVerdict>): (r: Result<map<string, Value>>)
    ensures FinalReportOf(report).Err? ==> r.Err?
    ensures r.Ok? ==> r.value.Keys == {"detection", "localization", "rca_score", "rca_motivation"}
    ensures r.Ok? ==>
              var fr := FinalReportOf(report).value;
              r.value["detection"] == Bool(EvaluateDetection(scenario, GetOr(fr, "detection", Bool(false))))
    ensures r.Ok? ==>
              var fr := FinalReportOf(report).value;
              var loc := LocalizationString(GetOr(fr, "localization", List([])));
              && loc.Ok? && EvaluateLocalization(scenario, Str(loc.value)).Ok?
              && r.value["localization"] == Bool(EvaluateLocalization(scenario, Str(loc.value)).value)
    ensures r.Ok? ==>
              var fr := FinalReportOf(report).value;
              var v := EvaluateRcaAnalysis(GetOr(scenario, "RCA_gt", Str("")), GetOr(fr, "root_cause", Str("")),
                                           tokensUsedToday, judge);
              r.value["rca_score"] == ScoreValue(v.score) && r.value["rca_motivation"] == Str(v.motivation)
    ensures r.Ok? && tokensUsedToday > TokenDailyLimit ==>
              r.value["rca_score"] == Null && r.value["rca_motivation"] == Str(LimitError)
    ensures FinalReportOf(report).Ok? ==>
              (r.Err? <==>
                 || LocalizationString(GetOr(FinalReportOf(report).value, "localization", List([]))).Err?
                 || (GetOr(scenario, "target", Null) != Null && !GetOr(scenario, "target", Null).Str?))
  {
    match FinalReportOf(report)
    case Err(e) => Err(e)
    case Ok(fr) =>
      var detection := GetOr(fr, "detection", Bool(false));
      match LocalizationString(GetOr(fr, "localization", List([])))
      case Err(e) => Err(e)
      case Ok(localizationStr) =>
        var rootCause := GetOr(fr, "root_cause", Str(""));
        var groundTruth := GetOr(scenario, "RCA_gt", Str(""));
        match EvaluateLocalization(scenario, Str(localizationStr))
        case Err(e) => Err(e)
        case Ok(localized) =>
          var verdict := EvaluateRcaAnalysis(groundTruth, rootCause, tokensUsedToday, judge);
          Ok(map[
            "detection" := Bool(EvaluateDetection(scenario, detection)),
            "localization" := Bool(localized),
            "rca_score" := ScoreValue(verdict.score),
            "rca_motivation" := Str(verdict.motivation)])
  }

  /**
   * An empty report is read with the defaults: no detection, an empty
   * localization, an empty root cause. Against a scenario with a string
   * target it is a correct detection only for an empty target, and a
   * correct localization only for an empty target too; the judge is handed
   * an empty root cause.
   */
  lemma {:induction false} EmptyReportDefaults(scenario: map<string, Value>, tokensUsedToday: int,
                                               judge: (Value, Value) -> Result<RcaVerdict>)
    requires "target" in scenario && scenario["target"].Str?
    ensures var r := EvaluateExperiment(scenario, map[], tokensUsedToday, judge);
      && r.Ok?
      && (r.value["detection"] == Bool(true) <==> scenario["target"] == Str(""))
      && (r.value["localization"] == Bool(true) <==> scenario["target"] == Str(""))
      && var v := EvaluateRcaAnalysis(GetOr(scenario, "RCA_gt", Str("")), Str(""), tokensUsedToday, judge);
         r.value["rca_score"] == ScoreValue(v.score) && r.value["rca_motivation"] == Str(v.motivation)
  {
    var t := scenario["target"].s;
    assert LocalizationString(List([])) == Ok("");
    if t != "" {
      assert !Contains("", t);
    } else {
      EmptyContained("");
    }
  }
}
