// Triage: the aggregation of the per-pod metric reports into the
// `problematic_metrics` dict, and the selection of the prompt sections the
// triage LLM is shown. The Kubernetes, Jaeger and Prometheus reads are
// parameters, and so is `json.dumps`.

module Triage {
  import opened Values

  const HealthyInfo: string := "All monitored metrics look healthy; no anomalous values detected."

  /** The reports whose `is_anomalous` is truthy, in pod order. */
  function Anomalous(reports: seq<map<string, Value>>): (r: seq<map<string, Value>>)
    requires forall i :: 0 <= i < |reports| ==> "is_anomalous" in reports[i]
    ensures |r| <= |reports|
  {
    if reports == [] then []
    else
      var n := |reports| - 1;
      Anomalous(reports[..n]) + (if Truthy(reports[n]["is_anomalous"]) then [reports[n]] else [])
  }

  /** The anomalous reports are exactly the reports with a truthy flag, and nothing is reordered. */
  lemma {:induction false} AnomalousMembers(reports: seq<map<string, Value>>, x: map<string, Value>)
    requires forall i :: 0 <= i < |reports| ==> "is_anomalous" in reports[i]
    ensures x in Anomalous(reports) <==> x in reports && Truthy(x["is_anomalous"])
  {
    if reports != [] {
      var n := |reports| - 1;
      AnomalousMembers(reports[..n], x);
      assert reports == reports[..n] + [reports[n]];
    }
  }

  /** Some report is anomalous exactly when the filtered list is non-empty. */
  lemma {:induction false} AnomalousEmpty(reports: seq<map<string, Value>>)
    requires forall i :: 0 <= i < |reports| ==> "is_anomalous" in reports[i]
    ensures Anomalous(reports) == [] <==> forall i :: 0 <= i < |reports| ==> !Truthy(reports[i]["is_anomalous"])
  {
    if reports != [] {
      var n := |reports| - 1;
      AnomalousEmpty(reports[..n]);
      assert forall i :: 0 <= i < n ==> reports[..n][i] == reports[i];
    }
  }

  function AsObjects(ms: seq<map<string, Value>>): (r: seq<Value>)
    ensures |r| == |ms| && forall i :: 0 <= i < |ms| ==> r[i] == Obj(ms[i])
  {
    seq(|ms|, i requires 0 <= i < |ms| => Obj(ms[i]))
  }

  /**
   * The metrics part of `get_triage_data`: the anomalous reports under
   * `problematic_metrics`, then `pods_count` (their number) when there are
   * some and the healthy `info` note when there are none.
   */
  method CollectMetrics(reports: seq<map<string, Value>>) returns (metrics: map<string, Value>)
    requires forall i :: 0 <= i < |reports| ==> "is_anomalous" in reports[i]
    ensures "problematic_metrics" in metrics && metrics["problematic_metrics"] == List(AsObjects(Anomalous(reports)))
    ensures "pods_count" in metrics <==> Anomalous(reports) != []
    ensures "pods_count" in metrics ==> metrics["pods_count"] == Num(|Anomalous(reports)|)
    ensures "info" in metrics <==> Anomalous(reports) == []
    ensures "info" in metrics ==> metrics["info"] == Str(HealthyInfo)
    ensures metrics.Keys <= {"problematic_metrics", "pods_count", "info"}
  {
    var found: seq<map<string, Value>> := [];
    for k := 0 to |reports|
      invariant found == Anomalous(reports[..k])
    {
      assert reports[..k + 1][..k] == reports[..k];
      if Truthy(reports[k]["is_anomalous"]) {
        found := found + [reports[k]];
      }
    }
    assert reports[..|reports|] == reports;
    metrics := map["problematic_metrics" := List(AsObjects(found))];
    if |found| > 0 {
      metrics := metrics["pods_count" := Num(|found|)];
    } else {
      metrics := metrics["info" := Str(HealthyInfo)];
    }
  }

  /**
   * `get_triage_data`: the problematic pods and slow traces as read, and the
   * metrics dict. The Studio prototype also carries the error traces under
   * `problematic_traces`.
   */
  method GetTriageData(problematicPods: Value, slowTraces: Value, errorTraces: Option<Value>,
                       reports: seq<map<string, Value>>) returns (data: map<string, Value>)
    requires forall i :: 0 <= i < |reports| ==> "is_anomalous" in reports[i]
    ensures errorTraces.None? ==> data.Keys == {"problematic_pods", "slow_traces", "problematic_metrics"}
    ensures errorTraces.Some? ==> data.Keys == {"problematic_pods", "problematic_traces", "slow_traces", "problematic_metrics"}
    ensures data["problematic_pods"] == problematicPods && data["slow_traces"] == slowTraces
    ensures errorTraces.Some? ==> data["problematic_traces"] == errorTraces.value
    ensures data["problematic_metrics"].Obj? && "problematic_metrics" in data["problematic_metrics"].fields
    ensures "info" in data["problematic_metrics"].fields <==> Anomalous(reports) == []
  {
    var metrics := CollectMetrics(reports);
    data := map["problematic_pods" := problematicPods, "slow_traces" := slowTraces, "problematic_metrics" := Obj(metrics)];
    if errorTraces.Some? {
      data := data["problematic_traces" := errorTraces.value];
    }
  }

  // -----------------------------------------------------------------------
  // The triage prompt

  /** One part of the triage prompt; `Render` gives its text. */
  datatype Part =
    | Header(appName: string, appSummary: string)
    | PodsSection(json: string)
    | MetricsSection(json: string)
    | ErrorTracesSection(json: string)
    | SlowTracesSection(json: string)
    | NoIssuesNote

  function Render(p: Part): string
  {
    match p
    case Header(name, summary) =>
      "Please analyze the following triage data for the " + name + " application.\n\n### Application Summary\n" + summary
    case PodsSection(json) => "### Problematic Pods\n```json\n" + json + "\n```"
    case MetricsSection(json) => "### Anomalous Pod Metrics\n```json\n" + json + "\n```"
    case ErrorTracesSection(json) => "### Error Traces\n```json\n" + json + "\n```"
    case SlowTracesSection(json) => "### Slow Traces\n```json\n" + json + "\n```"
    case NoIssuesNote => "No issues were found in pods, metrics, or traces."
  }

  function RenderAll(parts: seq<Part>): (texts: seq<string>)
    ensures |texts| == |parts| && forall i :: 0 <= i < |parts| ==> texts[i] == Render(parts[i])
  {
    seq(|parts|, i requires 0 <= i < |parts| => Render(parts[i]))
  }

  /** The parts' texts joined by blank lines. */
  function PromptText(parts: seq<Part>): string
  {
    Join("\n\n", RenderAll(parts))
  }

  /** The position of a part in the prompt. */
  function Rank(p: Part): nat
  {
    match p
    case Header(_, _) => 0
    case PodsSection(_) => 1
    case MetricsSection(_) => 2
    case ErrorTracesSection(_) => 3
    case SlowTracesSection(_) => 4
    case NoIssuesNote => 5
  }

  /** A dict read from the state, or a non-dict value (which has no keys). */
  function KeysOfValue(v: Value): set<string>
  {
    if v.Obj? then v.fields.Keys else {}
  }

  /** A traces result is shown unless it carries an `info` or an `error` key. */
  predicate TracesShown(v: Value)
  {
    "info" !in KeysOfValue(v) && "error" !in KeysOfValue(v)
  }

  /** The sections shown, in prompt order. */
  function Sections(pods: Value, metrics: Value, errorTraces: Option<Value>, slowTraces: Value,
                    dumps: Value -> string): seq<Part>
  {
    (if "info" !in KeysOfValue(pods) then [PodsSection(dumps(pods))] else [])
    + (if "info" !in KeysOfValue(metrics) then [MetricsSection(dumps(metrics))] else [])
    + (if errorTraces.Some? && TracesShown(errorTraces.value) then [ErrorTracesSection(dumps(errorTraces.value))] else [])
    + (if TracesShown(slowTraces) then [SlowTracesSection(dumps(slowTraces))] else [])
  }

  /** The parts of the prompt: the header, then the sections, or the no-issues note when there are none. */
  function TriageParts(appName: string, appSummary: string, pods: Value, metrics: Value,
                       errorTraces: Option<Value>, slowTraces: Value, dumps: Value -> string): seq<Part>
  {
    var sections := Sections(pods, metrics, errorTraces, slowTraces, dumps);
    [Header(appName, appSummary)] + (if sections == [] then [NoIssuesNote] else sections)
  }

  /**
   * The parts of `triage_agent`'s prompt: the header, then the pods section unless the
   * pods carry `info`, the metrics section unless the metrics carry `info`,
   * (in the Studio prototype) the error-traces section and then the
   * slow-traces section unless they carry `info` or `error`, and the
   * no-issues note when no section was added.
   */
  method SelectParts(appName: string, appSummary: string, pods: Value, metrics: Value,
                     errorTraces: Option<Value>, slowTraces: Value, dumps: Value -> string)
    returns (parts: seq<Part>)
    ensures parts == TriageParts(appName, appSummary, pods, metrics, errorTraces, slowTraces, dumps)
  {
    ghost var shown := [
      if "info" !in KeysOfValue(pods) then [PodsSection(dumps(pods))] else [],
      if "info" !in KeysOfValue(metrics) then [MetricsSection(dumps(metrics))] else [],
      if errorTraces.Some? && TracesShown(errorTraces.value) then [ErrorTracesSection(dumps(errorTraces.value))] else [],
      if TracesShown(slowTraces) then [SlowTracesSection(dumps(slowTraces))] else []];
    var sections: seq<Part> := [];
    if "info" !in KeysOfValue(pods) {
      sections := sections + [PodsSection(dumps(pods))];
    }
    assert sections == shown[0];
    if "info" !in KeysOfValue(metrics) {
      sections := sections + [MetricsSection(dumps(metrics))];
    }
    assert sections == shown[0] + shown[1];
    if errorTraces.Some? && TracesShown(errorTraces.value) {
      sections := sections + [ErrorTracesSection(dumps(errorTraces.value))];
    }
    assert sections == shown[0] + shown[1] + shown[2];
    if TracesShown(slowTraces) {
      sections := sections + [SlowTracesSection(dumps(slowTraces))];
    }
    assert sections == shown[0] + shown[1] + shown[2] + shown[3];
    parts := [Header(appName, appSummary)] + sections;
    if |parts| == 1 {
      parts := parts + [NoIssuesNote];
    }
  }

  /** `triage_agent`'s human input: the selected parts joined by blank lines. */
  method TriagePrompt(appName: string, appSummary: string, pods: Value, metrics: Value,
                      errorTraces: Option<Value>, slowTraces: Value, dumps: Value -> string)
    returns (humanInput: string)
    ensures humanInput == PromptText(TriageParts(appName, appSummary, pods, metrics, errorTraces, slowTraces, dumps))
    ensures IsPrefix(Render(Header(appName, appSummary)), humanInput)
  {
    var parts := SelectParts(appName, appSummary, pods, metrics, errorTraces, slowTraces, dumps);
    PromptStartsWithHeader(parts);
    humanInput := Join("\n\n", RenderAll(parts));
  }

  /** Each section is shown exactly under its rule. */
  lemma SectionsShown(appName: string, appSummary: string, pods: Value, metrics: Value,
                      errorTraces: Option<Value>, slowTraces: Value, dumps: Value -> string)
    ensures var parts := TriageParts(appName, appSummary, pods, metrics, errorTraces, slowTraces, dumps);
      && (PodsSection(dumps(pods)) in parts <==> "info" !in KeysOfValue(pods))
      && (MetricsSection(dumps(metrics)) in parts <==> "info" !in KeysOfValue(metrics))
      && ((errorTraces.Some? && ErrorTracesSection(dumps(errorTraces.value)) in parts)
          <==> (errorTraces.Some? && TracesShown(errorTraces.value)))
      && (SlowTracesSection(dumps(slowTraces)) in parts <==> TracesShown(slowTraces))
  {
    var a := if "info" !in KeysOfValue(pods) then [PodsSection(dumps(pods))] else [];
    var b := if "info" !in KeysOfValue(metrics) then [MetricsSection(dumps(metrics))] else [];
    var c := if errorTraces.Some? && TracesShown(errorTraces.value) then [ErrorTracesSection(dumps(errorTraces.value))] else [];
    var d := if TracesShown(slowTraces) then [SlowTracesSection(dumps(slowTraces))] else [];
    assert Sections(pods, metrics, errorTraces, slowTraces, dumps) == a + b + c + d;
    var parts := TriageParts(appName, appSummary, pods, metrics, errorTraces, slowTraces, dumps);
    var x := a + b + c + d;
    assert parts == [Header(appName, appSummary)] + (if x == [] then [NoIssuesNote] else x);
    ChunkMember(Header(appName, appSummary), a, b, c, d, PodsSection(dumps(pods)));
    ChunkMember(Header(appName, appSummary), a, b, c, d, MetricsSection(dumps(metrics)));
    if errorTraces.Some? {
      ChunkMember(Header(appName, appSummary), a, b, c, d, ErrorTracesSection(dumps(errorTraces.value)));
    }
    ChunkMember(Header(appName, appSummary), a, b, c, d, SlowTracesSection(dumps(slowTraces)));
  }

  /** A section is among the parts exactly when it is in one of the four chunks. */
  lemma ChunkMember(h: Part, a: seq<Part>, b: seq<Part>, c: seq<Part>, d: seq<Part>, y: Part)
    requires y != h && y != NoIssuesNote
    ensures var s := a + b + c + d;
      y in [h] + (if s == [] then [NoIssuesNote] else s) <==> y in a || y in b || y in c || y in d
  {
  }

  /** The header comes first and the parts keep the prompt order, each at most once. */
  lemma PartsOrdered(appName: string, appSummary: string, pods: Value, metrics: Value,
                     errorTraces: Option<Value>, slowTraces: Value, dumps: Value -> string)
    ensures var parts := TriageParts(appName, appSummary, pods, metrics, errorTraces, slowTraces, dumps);
      && |parts| >= 2 && parts[0] == Header(appName, appSummary)
      && forall i, j :: 0 <= i < j < |parts| ==> Rank(parts[i]) < Rank(parts[j])
  {
    var a := if "info" !in KeysOfValue(pods) then [PodsSection(dumps(pods))] else [];
    var b := if "info" !in KeysOfValue(metrics) then [MetricsSection(dumps(metrics))] else [];
    var c := if errorTraces.Some? && TracesShown(errorTraces.value) then [ErrorTracesSection(dumps(errorTraces.value))] else [];
    var d := if TracesShown(slowTraces) then [SlowTracesSection(dumps(slowTraces))] else [];
    assert Sections(pods, metrics, errorTraces, slowTraces, dumps) == a + b + c + d;
    ChunksAscend(Header(appName, appSummary), a, b, c, d);
    var parts := TriageParts(appName, appSummary, pods, metrics, errorTraces, slowTraces, dumps);
    assert parts == [Header(appName, appSummary)] + (if a + b + c + d == [] then [NoIssuesNote] else a + b + c + d);
    assert RanksAscend(parts);
  }

  predicate RanksAscend(parts: seq<Part>)
  {
    forall i, j :: 0 <= i < j < |parts| ==> Rank(parts[i]) < Rank(parts[j])
  }

  /** The header, then at most one part of each section kind in prompt order, or the note alone. */
  lemma ChunksAscend(h: Part, a: seq<Part>, b: seq<Part>, c: seq<Part>, d: seq<Part>)
    requires h.Header?
    requires |a| <= 1 && |b| <= 1 && |c| <= 1 && |d| <= 1
    requires a != [] ==> a[0].PodsSection?
    requires b != [] ==> b[0].MetricsSection?
    requires c != [] ==> c[0].ErrorTracesSection?
    requires d != [] ==> d[0].SlowTracesSection?
    ensures var s := a + b + c + d;
      RanksAscend([h] + (if s == [] then [NoIssuesNote] else s))
  {
  }

  /** The no-issues note is the only part after the header, and it is there exactly when no section is shown. */
  lemma NoIssuesIffNothingShown(appName: string, appSummary: string, pods: Value, metrics: Value,
                                errorTraces: Option<Value>, slowTraces: Value, dumps: Value -> string)
    ensures var parts := TriageParts(appName, appSummary, pods, metrics, errorTraces, slowTraces, dumps);
      && (NoIssuesNote in parts <==> |parts| == 2 && parts[1] == NoIssuesNote)
      && (NoIssuesNote in parts <==>
            && "info" in KeysOfValue(pods) && "info" in KeysOfValue(metrics)
            && (errorTraces.None? || !TracesShown(errorTraces.value)) && !TracesShown(slowTraces))
  {
  }

  /** The prompt text starts with the header, whatever sections follow. */
  lemma {:induction false} PromptStartsWithHeader(parts: seq<Part>)
    requires parts != []
    ensures IsPrefix(Render(parts[0]), PromptText(parts))
  {
    JoinAsConcat("\n\n", RenderAll(parts));
  }

  /**
   * Through `get_triage_data`, the metrics section is shown exactly when at
   * least one pod's report was anomalous.
   */
  lemma MetricsShownIffAnomalous(reports: seq<map<string, Value>>, data: map<string, Value>)
    requires forall i :: 0 <= i < |reports| ==> "is_anomalous" in reports[i]
    requires "problematic_metrics" in data && data["problematic_metrics"].Obj?
    requires "info" in data["problematic_metrics"].fields <==> Anomalous(reports) == []
    ensures "info" !in KeysOfValue(data["problematic_metrics"])
            <==> exists i :: 0 <= i < |reports| && Truthy(reports[i]["is_anomalous"])
  {
    AnomalousEmpty(reports);
  }
}
