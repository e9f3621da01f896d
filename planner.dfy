// The planner: the dependency record of a symptom's resource (the cluster
// and dependency-graph lookups are parameters), the empty-symptoms
// shortcut, and the markdown prompt with one numbered block per symptom.
// The LLM's task list and `json.dumps` are parameters.

module Planner {
  import opened Values
  import opened Schemas

  /** One pod as a service lookup lists it. */
  datatype PodEntry = PodEntry(podName: string, podStatus: string)

  /**
   * The lookups `get_resource_dependencies` makes: the services of a pod,
   * the services a service uses, its infrastructure dependencies (`None`
   * when the lookup does not give a dict, else its items in order), and the
   * pods of a service.
   */
  datatype Lookups = Lookups(
    servicesOfPod: string -> seq<string>,
    servicesUsedBy: string -> seq<string>,
    infraOf: string -> Option<seq<(string, string)>>,
    podsOf: string -> seq<PodEntry>)

  datatype DataDependency = DataDependency(service: string, pods: seq<string>)
  datatype InfraDependency = InfraDependency(service: string, dependencyType: string, pods: seq<string>)

  /** The dependency dict of a resource; `None` is a key that was not set. */
  datatype Dependencies = Dependencies(
    resourceName: string,
    resourceType: ResourceType,
    data: Option<seq<DataDependency>>,
    infra: Option<seq<InfraDependency>>)

  function PodNames(pods: seq<PodEntry>): (names: seq<string>)
    ensures |names| == |pods| && forall i :: 0 <= i < |pods| ==> names[i] == pods[i].podName
  {
    seq(|pods|, i requires 0 <= i < |pods| => pods[i].podName)
  }

  /** A pod resolves to the first service listed for it, a service to itself; a pod with no service has none. */
  function ResolveService(s: Symptom, look: Lookups): (r: Result<string>)
    ensures s.resourceType == Service ==> r == Ok(s.affectedResource)
    ensures s.resourceType == Pod && look.servicesOfPod(s.affectedResource) != [] ==>
              r == Ok(look.servicesOfPod(s.affectedResource)[0])
    ensures r.Err? <==> s.resourceType == Pod && look.servicesOfPod(s.affectedResource) == []
  {
    if s.resourceType == Pod then
      var services := look.servicesOfPod(s.affectedResource);
      if services == [] then Err("list index out of range") else Ok(services[0])
    else Ok(s.affectedResource)
  }

  function DataDependencyOf(dep: string, look: Lookups): DataDependency
  {
    DataDependency(dep, PodNames(look.podsOf(dep)))
  }

  function InfraDependencyOf(item: (string, string), look: Lookups): InfraDependency
  {
    InfraDependency(item.0, item.1, PodNames(look.podsOf(item.0)))
  }

  /** The dependency record the lookups give for a symptom. */
  function DependenciesOf(s: Symptom, look: Lookups): Result<Dependencies>
  {
    match ResolveService(s, look)
    case Err(e) => Err(e)
    case Ok(service) =>
      var used := look.servicesUsedBy(service);
      var infra := look.infraOf(service);
      Ok(Dependencies(
        s.affectedResource, s.resourceType,
        if |used| > 0 then Some(seq(|used|, i requires 0 <= i < |used| => DataDependencyOf(used[i], look))) else None,
        if infra.Some? && |infra.value| > 0
        then Some(seq(|infra.value|, i requires 0 <= i < |infra.value| => InfraDependencyOf(infra.value[i], look)))
        else None))
  }

  /** The pod names of one service, in the order the lookup lists them. */
  method CollectPodNames(pods: seq<PodEntry>) returns (names: seq<string>)
    ensures names == PodNames(pods)
  {
    names := [];
    for j := 0 to |pods|
      invariant names == PodNames(pods[..j])
    {
      names := names + [pods[j].podName];
    }
    assert pods[..|pods|] == pods;
  }

  /**
   * `get_resource_dependencies`: fails exactly when a pod has no service;
   * otherwise the record names the resource, and carries one data entry per
   * service used (if there are any) and one infrastructure entry per item of
   * a non-empty infrastructure dict, each with its pods.
   */
  method GetResourceDependencies(s: Symptom, look: Lookups) returns (r: Result<Dependencies>)
    ensures r == DependenciesOf(s, look)
  {
    var service: string;
    if s.resourceType == Pod {
      var services := look.servicesOfPod(s.affectedResource);
      if |services| == 0 {
        return Err("list index out of range");
      }
      service := services[0];
    } else {
      service := s.affectedResource;
    }
    var dataDependencies := look.servicesUsedBy(service);
    var infraDependencies := look.infraOf(service);
    var data: Option<seq<DataDependency>> := None;
    if |dataDependencies| > 0 {
      var entries: seq<DataDependency> := [];
      for k := 0 to |dataDependencies|
        invariant |entries| == k
        invariant forall i :: 0 <= i < k ==> entries[i] == DataDependencyOf(dataDependencies[i], look)
      {
        var dep := dataDependencies[k];
        var pods := CollectPodNames(look.podsOf(dep));
        entries := entries + [DataDependency(dep, pods)];
      }
      assert entries == seq(|dataDependencies|, i requires 0 <= i < |dataDependencies| => DataDependencyOf(dataDependencies[i], look));
      data := Some(entries);
    }
    var infra: Option<seq<InfraDependency>> := None;
    if infraDependencies.Some? && |infraDependencies.value| > 0 {
      var items := infraDependencies.value;
      var entries: seq<InfraDependency> := [];
      for k := 0 to |items|
        invariant |entries| == k
        invariant forall i :: 0 <= i < k ==> entries[i] == InfraDependencyOf(items[i], look)
      {
        var pods := CollectPodNames(look.podsOf(items[k].0));
        entries := entries + [InfraDependency(items[k].0, items[k].1, pods)];
      }
      assert entries == seq(|items|, i requires 0 <= i < |items| => InfraDependencyOf(items[i], look));
      infra := Some(entries);
    }
    r := Ok(Dependencies(s.affectedResource, s.resourceType, data, infra));
  }

  /**
   * The record always names the symptom's resource; the data key is there
   * exactly when the resolved service uses other services, with one entry
   * per used service in order; the infrastructure key is there exactly when
   * the lookup gave a non-empty dict, with one entry per item in order.
   */
  lemma DependenciesShape(s: Symptom, look: Lookups)
    ensures var r := DependenciesOf(s, look);
      r.Ok? ==>
        var service := ResolveService(s, look).value;
        var used := look.servicesUsedBy(service);
        var infra := look.infraOf(service);
        && r.value.resourceName == s.affectedResource && r.value.resourceType == s.resourceType
        && (r.value.data.Some? <==> used != [])
        && (r.value.data.Some? ==>
              && |r.value.data.value| == |used|
              && forall i :: 0 <= i < |used| ==>
                   r.value.data.value[i].service == used[i] && r.value.data.value[i].pods == PodNames(look.podsOf(used[i])))
        && (r.value.infra.Some? <==> infra.Some? && infra.value != [])
        && (r.value.infra.Some? ==>
              && |r.value.infra.value| == |infra.value|
              && forall i :: 0 <= i < |infra.value| ==>
                && r.value.infra.value[i].service == infra.value[i].0
                && r.value.infra.value[i].dependencyType == infra.value[i].1
                && r.value.infra.value[i].pods == PodNames(look.podsOf(infra.value[i].0)))
    ensures DependenciesOf(s, look).Err? <==> s.resourceType == Pod && look.servicesOfPod(s.affectedResource) == []
  {
  }

  // -----------------------------------------------------------------------
  // The prompt

  datatype Enriched = Enriched(symptom: Symptom, deps: Dependencies)

  const Rule: string := "---\n\n"
  const NoneFound: string := "**Dependencies**: None found\n\n"

  function HeaderParts(appName: string, namespace: string, appSummary: string): seq<string>
  {
    [ "# Application Context\n\n",
      "- **Application**: " + appName + "\n",
      "- **Namespace**: `" + namespace + "`\n",
      "- **Summary**: " + appSummary + "\n\n",
      Rule,
      "# Symptoms to Investigate\n\n" ]
  }

  function DataValue(deps: seq<DataDependency>): Value
  {
    List(seq(|deps|, i requires 0 <= i < |deps| =>
      Obj(map["service" := Str(deps[i].service), "pods" := StrList(deps[i].pods)])))
  }

  function InfraValue(deps: seq<InfraDependency>): Value
  {
    List(seq(|deps|, i requires 0 <= i < |deps| =>
      Obj(map["service" := Str(deps[i].service), "dependency_type" := Str(deps[i].dependencyType),
              "pods" := StrList(deps[i].pods)])))
  }

  function DataPart(deps: seq<DataDependency>, dumps: Value -> string): string
  {
    "**Data Dependencies**:\n```json\n" + dumps(DataValue(deps)) + "\n```\n\n"
  }

  function InfraPart(deps: seq<InfraDependency>, dumps: Value -> string): string
  {
    "**Infrastructure Dependencies**:\n```json\n" + dumps(InfraValue(deps)) + "\n```\n\n"
  }

  /** The dependency lines of a block: each non-empty list, or the none-found line when neither key is set. */
  function DependencyParts(d: Dependencies, dumps: Value -> string): seq<string>
  {
    (if d.data.Some? && d.data.value != [] then [DataPart(d.data.value, dumps)] else [])
    + (if d.infra.Some? && d.infra.value != [] then [InfraPart(d.infra.value, dumps)] else [])
    + (if d.data.None? && d.infra.None? then [NoneFound] else [])
  }

  /** The block of the symptom numbered `i`. */
  function BlockParts(i: nat, e: Enriched, dumps: Value -> string): seq<string>
  {
    [ "## Symptom " + NatToString(i) + "\n\n",
      "**Type**: " + e.symptom.potentialSymptom + "\n\n",
      "**Resource**: `" + e.symptom.affectedResource + "` (`" + ResourceTypeName(e.symptom.resourceType) + "`)\n\n",
      "**Evidence**:\n" + e.symptom.evidence + "\n\n" ]
    + DependencyParts(e.deps, dumps) + [Rule]
  }

  function Block(i: nat, e: Enriched, dumps: Value -> string): string
  {
    Concat(BlockParts(i, e, dumps))
  }

  /** The first `n` blocks, numbered from 1. */
  function Blocks(enriched: seq<Enriched>, n: nat, dumps: Value -> string): string
    requires n <= |enriched|
  {
    if n == 0 then "" else Blocks(enriched, n - 1, dumps) + Block(n, enriched[n - 1], dumps)
  }

  /** The whole prompt. */
  function PlannerPrompt(appName: string, namespace: string, appSummary: string, enriched: seq<Enriched>, dumps: Value -> string): string
  {
    Concat(HeaderParts(appName, namespace, appSummary)) + Blocks(enriched, |enriched|, dumps)
  }

  lemma BlockStep(parts: seq<string>, start: string, enriched: seq<Enriched>, i: nat, dumps: Value -> string)
    requires i < |enriched| && Concat(parts) == start + Blocks(enriched, i, dumps)
    ensures Concat(parts + BlockParts(i + 1, enriched[i], dumps)) == start + Blocks(enriched, i + 1, dumps)
  {
    AppendParts(parts, BlockParts(i + 1, enriched[i], dumps), start, Blocks(enriched, i, dumps));
  }

  /** A dependency record as `get_resource_dependencies` builds it: a key is only set with a non-empty list. */
  predicate KeysOnlyWhenNonEmpty(d: Dependencies)
  {
    (d.data.Some? ==> d.data.value != []) && (d.infra.Some? ==> d.infra.value != [])
  }

  lemma BuiltRecordsKeepKeysNonEmpty(s: Symptom, look: Lookups)
    requires DependenciesOf(s, look).Ok?
    ensures KeysOnlyWhenNonEmpty(DependenciesOf(s, look).value)
  {
  }

  /**
   * The none-found line is in a block exactly when neither dependency key
   * is set; for a record as the planner builds it, each set key shows its
   * list, so a block has at least one dependency line.
   */
  lemma {:induction false} NoneFoundIff(d: Dependencies, dumps: Value -> string)
    ensures NoneFound in DependencyParts(d, dumps) <==> d.data.None? && d.infra.None?
    ensures KeysOnlyWhenNonEmpty(d) ==>
              && (d.data.Some? ==> DataPart(d.data.value, dumps) in DependencyParts(d, dumps))
              && (d.infra.Some? ==> InfraPart(d.infra.value, dumps) in DependencyParts(d, dumps))
              && |DependencyParts(d, dumps)| >= 1
  {
    if d.data.Some? && d.data.value != [] {
      var p := DataPart(d.data.value, dumps);
      assert p[3] == 'a' && NoneFound[3] == 'e';
    }
    if d.infra.Some? && d.infra.value != [] {
      var p := InfraPart(d.infra.value, dumps);
      assert p[2] == 'I' && NoneFound[2] == 'D';
    }
  }

  /** The block numbered k opens with its number and closes with the rule. */
  lemma {:induction false} BlockFrame(k: nat, e: Enriched, dumps: Value -> string)
    ensures IsPrefix("## Symptom " + NatToString(k) + "\n\n", Concat(BlockParts(k, e, dumps)))
    ensures IsSuffix(Rule, Concat(BlockParts(k, e, dumps)))
  {
    var p := BlockParts(k, e, dumps);
    var n := |p|;
    assert p == [p[0]] + p[1..];
    ConcatSplit([p[0]], p[1..]);
    ConcatOne(p[0]);
    assert p == p[..n - 1] + [Rule];
    ConcatSplit(p[..n - 1], [Rule]);
    ConcatOne(Rule);
  }

  /** The output of the planner node: the prompt it built, if any, and the task list. */
  datatype PlannerOutput = PlannerOutput(humanInput: Option<string>, rcaTasks: seq<RCATask>)

  /**
   * `planner_agent`: with no symptoms, no tasks and no prompt; otherwise it
   * enriches every symptom with its dependencies (failing when one of them
   * cannot be resolved), builds the prompt and returns the model's tasks.
   */
  method PlannerAgent(appName: string, namespace: string, appSummary: string, symptoms: seq<Symptom>,
                      look: Lookups, dumps: Value -> string, llmTasks: RCATaskList)
    returns (r: Result<PlannerOutput>)
    ensures symptoms == [] ==> r == Ok(PlannerOutput(None, []))
    ensures symptoms != [] ==>
              (r.Err? <==> exists i :: 0 <= i < |symptoms| && DependenciesOf(symptoms[i], look).Err?)
    ensures symptoms != [] && r.Ok? ==>
              && (forall i :: 0 <= i < |symptoms| ==> DependenciesOf(symptoms[i], look).Ok?)
              && var enriched := seq(|symptoms|, i requires 0 <= i < |symptoms| && DependenciesOf(symptoms[i], look).Ok? =>
                                       Enriched(symptoms[i], DependenciesOf(symptoms[i], look).value));
                 r.value == PlannerOutput(Some(PlannerPrompt(appName, namespace, appSummary, enriched, dumps)), llmTasks.rcaTasks)
  {
    if |symptoms| == 0 {
      return Ok(PlannerOutput(None, []));
    }
    var enrichedSymptoms: seq<Enriched> := [];
    for k := 0 to |symptoms|
      invariant |enrichedSymptoms| == k
      invariant forall i :: 0 <= i < k ==>
                  && DependenciesOf(symptoms[i], look).Ok?
                  && enrichedSymptoms[i] == Enriched(symptoms[i], DependenciesOf(symptoms[i], look).value)
    {
      var deps := GetResourceDependencies(symptoms[k], look);
      if deps.Err? {
        return Err(deps.error);
      }
      enrichedSymptoms := enrichedSymptoms + [Enriched(symptoms[k], deps.value)];
    }
    assert enrichedSymptoms == seq(|symptoms|, i requires 0 <= i < |symptoms| && DependenciesOf(symptoms[i], look).Ok? =>
                                     Enriched(symptoms[i], DependenciesOf(symptoms[i], look).value));
    var humanParts := HeaderParts(appName, namespace, appSummary);
    ghost var start := Concat(humanParts);
    for i := 0 to |enrichedSymptoms|
      invariant Concat(humanParts) == start + Blocks(enrichedSymptoms, i, dumps)
    {
      BlockStep(humanParts, start, enrichedSymptoms, i, dumps);
      humanParts := humanParts + BlockParts(i + 1, enrichedSymptoms[i], dumps);
    }
    r := Ok(PlannerOutput(Some(Concat(humanParts)), llmTasks.rcaTasks));
  }
}
