// The records the agents exchange: symptoms, investigation tasks, summary
// updates and the final report, with the validation and the defaults their
// declarations give them, and the dict form (`model_dump`) of the report.

module Schemas {
  import opened Values

  /** The `Literal["pod", "service"]` field type. */
  datatype ResourceType = Pod | Service

  function ResourceTypeName(t: ResourceType): (s: string)
    ensures s == "pod" || s == "service"
  {
    match t
    case Pod => "pod"
    case Service => "service"
  }

  /** Validation of a `resource_type` field: only the two literals are accepted. */
  function ParseResourceType(s: string): (r: Option<ResourceType>)
    ensures r.Some? <==> (s == "pod" || s == "service")
    ensures r.Some? ==> ResourceTypeName(r.value) == s
  {
    if s == "pod" then Some(Pod) else if s == "service" then Some(Service) else None
  }

  lemma ResourceTypeRoundTrip(t: ResourceType)
    ensures ParseResourceType(ResourceTypeName(t)) == Some(t)
  {
  }

  datatype Symptom = Symptom(
    potentialSymptom: string,
    resourceType: ResourceType,
    affectedResource: string,
    evidence: string)

  datatype SymptomList = SymptomList(symptoms: seq<Symptom>)

  /** An investigation task. It has no priority field: nothing identifies a task but its contents. */
  datatype RCATask = RCATask(
    investigationGoal: string,
    targetResource: string,
    resourceType: ResourceType,
    suggestedTools: seq<string>)

  datatype RCATaskList = RCATaskList(rcaTasks: seq<RCATask>)

  /** What one summarisation step extracts. */
  datatype UpdateAgentData = UpdateAgentData(insight: string, prevStep: string)

  /** The supervisor's report: exactly four fields, all required. */
  datatype FinalReport = FinalReport(
    rootCause: string,
    affectedResources: seq<string>,
    evidenceSummary: string,
    investigationSummary: string)

  // -----------------------------------------------------------------------
  // Construction with the declared defaults

  function NewSymptom(potentialSymptom: string, resourceType: string, affectedResource: string, evidence: string): (r: Result<Symptom>)
    ensures r.Ok? <==> (resourceType == "pod" || resourceType == "service")
    ensures r.Ok? ==> ResourceTypeName(r.value.resourceType) == resourceType
    ensures r.Ok? ==> r.value.potentialSymptom == potentialSymptom && r.value.affectedResource == affectedResource && r.value.evidence == evidence
  {
    match ParseResourceType(resourceType)
    case None => Err("resource_type must be 'pod' or 'service'")
    case Some(t) => Ok(Symptom(potentialSymptom, t, affectedResource, evidence))
  }

  /** `suggested_tools` defaults to the empty list when it is not given. */
  function NewRCATask(investigationGoal: string, targetResource: string, resourceType: string, suggestedTools: Option<seq<string>>): (r: Result<RCATask>)
    ensures r.Ok? <==> (resourceType == "pod" || resourceType == "service")
    ensures r.Ok? ==> ResourceTypeName(r.value.resourceType) == resourceType
    ensures r.Ok? && suggestedTools.None? ==> r.value.suggestedTools == []
    ensures r.Ok? && suggestedTools.Some? ==> r.value.suggestedTools == suggestedTools.value
  {
    match ParseResourceType(resourceType)
    case None => Err("resource_type must be 'pod' or 'service'")
    case Some(t) =>
      Ok(RCATask(investigationGoal, targetResource, t, if suggestedTools.Some? then suggestedTools.value else []))
  }

  function NewSymptomList(symptoms: Option<seq<Symptom>>): (r: SymptomList)
    ensures symptoms.None? ==> r.symptoms == []
    ensures symptoms.Some? ==> r.symptoms == symptoms.value
  {
    SymptomList(if symptoms.Some? then symptoms.value else [])
  }

  function NewRCATaskList(tasks: Option<seq<RCATask>>): (r: RCATaskList)
    ensures tasks.None? ==> r.rcaTasks == []
    ensures tasks.Some? ==> r.rcaTasks == tasks.value
  {
    RCATaskList(if tasks.Some? then tasks.value else [])
  }

  // -----------------------------------------------------------------------
  // The dict form of the report and its validation

  function StrList(items: seq<string>): (v: Value)
    ensures v.List? && |v.items| == |items|
    ensures forall i :: 0 <= i < |items| ==> v.items[i] == Str(items[i])
  {
    List(seq(|items|, i requires 0 <= i < |items| => Str(items[i])))
  }

  /** A list value all of whose items are strings, read back as strings. */
  function AsStrList(v: Value): (r: Option<seq<string>>)
    ensures r.Some? ==> StrList(r.value) == v
  {
    if v.List? && forall i :: 0 <= i < |v.items| ==> v.items[i].Str? then
      var items := seq(|v.items|, i requires 0 <= i < |v.items| => v.items[i].s);
      assert StrList(items).items == v.items;
      Some(items)
    else None
  }

  const ReportKeys: set<string> := {"root_cause", "affected_resources", "evidence_summary", "investigation_summary"}

  /** `FinalReport(...).model_dump()` */
  function DumpReport(r: FinalReport): (d: map<string, Value>)
    ensures d.Keys == ReportKeys
  {
    map[
      "root_cause" := Str(r.rootCause),
      "affected_resources" := StrList(r.affectedResources),
      "evidence_summary" := Str(r.evidenceSummary),
      "investigation_summary" := Str(r.investigationSummary)]
  }

  ghost predicate WellTypedReport(d: map<string, Value>)
  {
    && ReportKeys <= d.Keys
    && d["root_cause"].Str?
    && AsStrList(d["affected_resources"]).Some?
    && d["evidence_summary"].Str?
    && d["investigation_summary"].Str?
  }

  /** Validation of a dict as a `FinalReport`: every field is required, extra keys are ignored. */
  function ValidateReport(d: map<string, Value>): (r: Result<FinalReport>)
    ensures r.Ok? <==> WellTypedReport(d)
    ensures r.Ok? ==> forall k :: k in ReportKeys ==> DumpReport(r.value)[k] == d[k]
  {
    if ReportKeys <= d.Keys && d["root_cause"].Str? && d["evidence_summary"].Str? && d["investigation_summary"].Str? then
      match AsStrList(d["affected_resources"])
      case None => Err("affected_resources must be a list of strings")
      case Some(resources) =>
        Ok(FinalReport(d["root_cause"].s, resources, d["evidence_summary"].s, d["investigation_summary"].s))
    else Err("missing or mistyped report field")
  }

  /** Dumping a report and validating the dict gives the report back. */
  lemma {:induction false} ReportRoundTrip(r: FinalReport)
    ensures ValidateReport(DumpReport(r)) == Ok(r)
  {
    var d := DumpReport(r);
    var v := StrList(r.affectedResources);
    assert d["affected_resources"] == v;
    assert forall i :: 0 <= i < |v.items| ==> v.items[i].Str?;
    var back := AsStrList(v);
    assert back.Some?;
    assert StrList(back.value) == v;
    assert |back.value| == |r.affectedResources|;
    forall i | 0 <= i < |r.affectedResources|
      ensures back.value[i] == r.affectedResources[i]
    {
      assert StrList(back.value).items[i] == Str(back.value[i]);
      assert v.items[i] == Str(r.affectedResources[i]);
    }
    assert back.value == r.affectedResources;
  }

  /** The dict form of a task as a worker's record carries it. */
  function TaskRecord(t: RCATask): (d: map<string, Value>)
    ensures d.Keys == {"investigation_goal", "target_resource", "resource_type", "suggested_tools"}
    ensures d["resource_type"] == Str("pod") || d["resource_type"] == Str("service")
  {
    map[
      "investigation_goal" := Str(t.investigationGoal),
      "target_resource" := Str(t.targetResource),
      "resource_type" := Str(ResourceTypeName(t.resourceType)),
      "suggested_tools" := StrList(t.suggestedTools)]
  }
}
