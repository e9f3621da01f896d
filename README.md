# SRE agent: verified model of the deterministic core

The SRE agent is an incident-analysis pipeline built on LangGraph. A triage
agent reads the cluster's problematic pods, anomalous metrics and slow
traces, and an LLM turns them into symptoms. A planner enriches each symptom
with the resource's data and infrastructure dependencies, and the LLM turns
those into investigation tasks. A router fans the tasks out to parallel RCA
workers. Each worker runs a ReAct loop of agent, tools and summariser under
a tool-call budget, until its submission tool writes a diagnosis. A
supervisor then turns the symptoms and the workers' records into the final
report. Around the LLM calls sit bookkeeping and text assembly, which is
what this project models in Dafny:

- the data model of the structured outputs, with `model_dump` and
  validation;
- the tool-call counters and the bullet lists shown to the model;
- the worker's budget zones, summarisation window, routing rule and final
  record;
- the parent graph's fan-out router and the reducers that gather worker
  records, including the priority merger that the parent does not use;
- the triage data aggregation and the triage prompt's sections;
- the planner's dependency enrichment and prompt, and the supervisor's
  fallback and prompt;
- the evaluation checks (detection, localization, the token guard);
- the experiment configuration editor: bulk, single and manual `execute`
  toggles, and grouping by application;
- the agent configuration loader;
- the Jaeger trace summariser and the log keyword filter of the MCP server;
- the three prototype graphs: the single-file Studio graph, the
  single-agent ReAct graph with its statistics table, and the ReAct graph
  with the mitigation planner.

Every LLM reply, every Kubernetes, Jaeger, Prometheus or Neo4j read, and
`json.dumps` is a parameter of the operation that uses it. Python dicts
whose iteration order is observable are sequences of pairs. The others are
Dafny maps. Python truthiness, `dict.get` defaults, `str.split`,
`str.join`, `str.strip` and the stable `sorted` are written out in
`values.dfy` and `sorting.dfy`.

Each source file has one module:

| module | models |
|---|---|
| `Values`, `Sorting` | JSON-like values, Python string built-ins, stable insertion sort |
| `Schemas` | sre-agent/models/schemas.py |
| `Reducers` | sre-agent/models/reducers.py |
| `Helpers` | sre-agent/utils/helpers.py |
| `RcaAgent` | sre-agent/agents/rca_agent.py (with the submission tool) |
| `Graph` | sre-agent/graph.py (with the `operator.add` reducer) |
| `Supervisor`, `Triage`, `Planner` | the three other agents |
| `Evaluation` | sre-agent/evaluation/evaluation.py |
| `ConfigEditor` | sre-agent/experiments_runner/config_editor_cli.py |
| `AgentConfigs` | sre-agent/experiments_runner/get_agent_configurations.py |
| `Jaeger`, `Logs` | mcp-server/JaegerAPI.py, mcp-server/logAPI.py |
| `StudioAgent` | what Studio/sre-agent.py does differently from the package |
| `ReactStructured`, `ReactMitigation` | the two studio/react_* prototypes |

The Studio prototype repeats the package's router, summariser window,
triage and supervisor. Those are modelled once, and a flag selects the
prototype's variant where it differs: the error-traces section in the
triage prompt, and the supervisor without `message_history` stripping.

## Model

| member | source | states |
|---|---|---|
| Schemas.ResourceTypeName | sre-agent/models/schemas.py:9 | a resource type is written as exactly "pod" or "service" |
| Schemas.ParseResourceType | sre-agent/models/schemas.py:23 | validation accepts exactly "pod" and "service", and reads back the literal it was given |
| Schemas.ResourceTypeRoundTrip | sre-agent/models/schemas.py:9 | writing a resource type and validating it gives the type back |
| Schemas.NewSymptom | sre-agent/models/schemas.py:6-11 | a symptom is built iff its resource type is valid, and it keeps the other fields unchanged |
| Schemas.NewRCATask | sre-agent/models/schemas.py:19-24 | a task is built iff its resource type is valid; `suggested_tools` defaults to the empty list |
| Schemas.NewSymptomList | sre-agent/models/schemas.py:14-16 | `symptoms` defaults to the empty list |
| Schemas.NewRCATaskList | sre-agent/models/schemas.py:27-29 | `rca_tasks` defaults to the empty list |
| Schemas.StrList | sre-agent/models/schemas.py:41 | a list of strings as a JSON list, item by item |
| Schemas.AsStrList | sre-agent/models/schemas.py:41 | a list read back as strings re-encodes to the same value |
| Schemas.DumpReport | sre-agent/models/schemas.py:38-43 | the dict form of a report has exactly the four field keys |
| Schemas.ValidateReport | sre-agent/models/schemas.py:38-43 | a dict validates iff all four fields are present and well typed; extra keys are ignored |
| Schemas.ReportRoundTrip | sre-agent/models/schemas.py:38-43 | validating a dumped report gives the report back |
| Schemas.TaskRecord | sre-agent/models/schemas.py:19-24 | a task's dict has exactly its four fields, and no priority |
| Reducers.Collect | sre-agent/models/reducers.py:13-19 | the priority map files every entry under its own priority |
| Reducers.MergeRcaAnalyses | sre-agent/models/reducers.py:2-22 | the loop plus the sorted read equal the merge specification |
| Reducers.SortedKeys | sre-agent/models/reducers.py:22 | sorting distinct integer keys gives their strictly ascending listing |
| Reducers.AscendingKeys | sre-agent/models/reducers.py:22 | the listing of a key set ascends strictly and holds exactly the keys |
| Reducers.Listing | sre-agent/models/reducers.py:22 | the map's analyses in ascending priority order, one per key |
| Reducers.CollectHasKey | sre-agent/models/reducers.py:14-19 | every priority an input analysis carries is a key of the map |
| Reducers.CollectKeySource | sre-agent/models/reducers.py:14-19 | every key is the priority of some input analysis |
| Reducers.CollectKeys | sre-agent/models/reducers.py:14-19 | a priority is a key iff some input analysis carries it |
| Reducers.CollectLastWins | sre-agent/models/reducers.py:14-19 | the entry for a priority is the last analysis that carries it |
| Reducers.CollectAppend | sre-agent/models/reducers.py:14 | the pass over `a + b` is the pass over `a` overridden by the pass over `b` |
| Reducers.CollectFromInput | sre-agent/models/reducers.py:14-19 | every entry of the map is one of the input analyses |
| Reducers.CollectSkipsUnfiled | sre-agent/models/reducers.py:15-18 | an analysis without a priority leaves the map unchanged |
| Reducers.ListingRoundTrip | sre-agent/models/reducers.py:13-22 | collecting the ordered listing of a well-formed map gives the map back |
| Reducers.MergeShape | sre-agent/models/reducers.py:14-22 | every output analysis comes from the input and has a priority; priorities ascend strictly (at most one per priority); every input priority is represented |
| Reducers.RightOverrides | sre-agent/models/reducers.py:14-19 | for a priority that `right` carries, the output holds `right`'s last analysis with it |
| Reducers.UnfiledDropped | sre-agent/models/reducers.py:15-18 | non-dicts, non-dict tasks and missing priorities never reach the output |
| Reducers.MergeIdempotent | sre-agent/models/reducers.py:14-22 | `merge(merge(l, r), r) == merge(l, r)` |
| Helpers.BulletList | sre-agent/utils/helpers.py:15-18 | the placeholder for no items, else "\n- " before each item, in order |
| Helpers.InsightsStr | sre-agent/utils/helpers.py:6-18 | "No insights yet" for no insights, else the bullet list of the insights |
| Helpers.PrevStepsStr | sre-agent/utils/helpers.py:21-33 | "No previous steps yet" for no steps, else the bullet list of the steps |
| Helpers.Tally | sre-agent/utils/helpers.py:55-56 | `dict(Counter(names))`: keys distinct and exactly the names that occur, each count positive and equal to the name's occurrences, the counts add up to the number of names |
| Helpers.AddName | sre-agent/utils/helpers.py:55 | one more occurrence bumps the name's entry, or appends it with count 1 |
| Helpers.TallyKeyOrder | sre-agent/utils/helpers.py:55-56 | `Counter` keeps its keys in order of first occurrence: every key occurs in the names, and each first occurs before the next key does; with distinct keys that are exactly the names, this fixes the order of the tally |
| Helpers.CountToolCalls | sre-agent/utils/helpers.py:36-56 | the loop's result is the tally of the names of all named calls of AI messages, in message order |
| Helpers.CountNonSubmissionToolCalls | sre-agent/utils/helpers.py:59-77 | the loop counts the calls with a function entry whose name (default "") is not the submission tool |
| Helpers.NonSubmissionIsTotalMinusSubmissions | sre-agent/utils/helpers.py:49-53 | when every call is named, the budget count is the tally's total minus the submission tool's count |
| Helpers.UnnamedCallCountsOnlyForBudget | sre-agent/utils/helpers.py:46-77 | after any messages, one more message whose call has a nameless function entry adds one to the budget count and nothing to the names, so the tally is unchanged |
| Helpers.CountOfEntry | sre-agent/utils/helpers.py:55 | in a tally with distinct keys, an entry's count is the one found by name |
| RcaAgent.HeadsDiffer | sre-agent/agents/rca_agent.py:78-89 | the exceeded and warning notes differ right after their common opening |
| RcaAgent.BudgetStatus | sre-agent/agents/rca_agent.py:78-89 | exceeded iff count >= budget, warning iff budget-2 <= count < budget, empty otherwise; the three zones are disjoint and exhaustive |
| RcaAgent.SuggestedToolsStr | sre-agent/agents/rca_agent.py:75 | the tools joined by ", ", or "Use your best judgment" when there are none |
| RcaAgent.RcaAgentPrompt | sre-agent/agents/rca_agent.py:58-106 | the reported count leaves out the submission tool, and the budget note follows that count |
| RcaAgent.LastTwo | sre-agent/agents/rca_agent.py:42 | `messages[-2:]`: the suffix of length min(2, n) |
| RcaAgent.SummariseWindow | sre-agent/agents/rca_agent.py:29-42 | with an AI message, the suffix from the last one (it opens with an AI message and holds no other); else the last two |
| RcaAgent.ApplySummary | sre-agent/agents/rca_agent.py:55 | a summary step adds exactly one insight and one step |
| RcaAgent.Summarise | sre-agent/agents/rca_agent.py:20-55 | the prompt reads the two bullet lists and the window: from the last AI message on (non-empty, opening with it, no other AI message) when there is one, else the last two messages; the reply becomes one insight and one step, appended |
| RcaAgent.SummariesAccumulate | sre-agent/agents/rca_agent.py:55 | after k summaries the lists have grown by k entries, and the earlier entries are kept |
| RcaAgent.SubmitFinalDiagnosis | sre-agent/tools/rca_tools.py:24-31 | `rca_output` becomes exactly {diagnosis, reasoning} |
| RcaAgent.AfterTools | sre-agent/agents/rca_agent.py:135-147 | "format-output" iff `rca_output` is non-empty, else "summarise" |
| RcaAgent.SubmissionLeadsToFormat | sre-agent/agents/rca_agent.py:144-147 | after the submission tool ran, the worker goes on to format its record |
| RcaAgent.StatsObject | sre-agent/agents/rca_agent.py:130 | the tally as a dict with one entry per tool |
| RcaAgent.FormatResponse | sre-agent/agents/rca_agent.py:109-132 | a one-element list holding `rca_output` with task, insights, steps_performed and tools_stats written in; other keys are kept |
| RcaAgent.StatsCoverCalls | sre-agent/agents/rca_agent.py:130 | every tool called by name has its count in the record |
| RcaAgent.NextNode | sre-agent/agents/rca_agent.py:165-185 | the worker's edges: tools when the model asks for them, then format-output or summarise, summarise back to the agent |
| RcaAgent.RunEnds | sre-agent/agents/rca_agent.py:174-185 | the tool count plays no part in routing; format-output is reached only after a tool run that left a non-empty `rca_output` |
| RcaAgent.EndWithoutRecord | sre-agent/agents/rca_agent.py:168-171 | a worker whose model answers without a tool call ends with no record |
| Graph.OrDefault | sre-agent/graph.py:24 | `state.get(key, default)` |
| Graph.RcaRouter | sre-agent/graph.py:15-53 | no tasks: one send to the supervisor with no analyses and the symptoms; else one fresh worker per task, in order, and no send to the supervisor; the prototype router in Studio/sre-agent.py is the same |
| Graph.Successors | sre-agent/graph.py:71-85 | each node but the planner has one successor; after the planner, the targets of the router's sends |
| Graph.RoutingAfterPlanner | sre-agent/graph.py:76-85 | after the planner come the workers when there are tasks and the supervisor when there are none; workers go to the supervisor, which ends |
| Graph.AddAnalyses | sre-agent/models/states.py:67 | `operator.add` keeps the old records, then the new ones |
| Graph.GatherKeepsAll | sre-agent/models/states.py:67 | gathering the workers' updates keeps every record, in update order, with no deduplication |
| Graph.WorkerRecordHasNoPriority | sre-agent/agents/rca_agent.py:121-126 | a worker record files its task without a priority |
| Graph.MergeDropsWorkerRecords | sre-agent/models/reducers.py:16-19 | merging worker records by priority would discard all of them |
| Supervisor.WithoutHistory | sre-agent/agents/supervisor_agent.py:62 | the shown copy has every key but `message_history`, values unchanged |
| Supervisor.SymptomsSection | sre-agent/agents/supervisor_agent.py:46-55 | empty without symptoms, else the heading, blocks numbered from 1 and a rule |
| Supervisor.FindingsSection | sre-agent/agents/supervisor_agent.py:58-67 | empty without records, else the heading, blocks numbered from 1 and a rule |
| Supervisor.PromptFrame | sre-agent/agents/supervisor_agent.py:38-43 | the prompt opens with the application header and ends with the closing request |
| Supervisor.HeaderText | sre-agent/agents/supervisor_agent.py:38-43 | the header is the title, the name, the summary and a rule |
| Supervisor.AppendSymptoms | sre-agent/agents/supervisor_agent.py:46-55 | the loop appends exactly the symptoms section's parts |
| Supervisor.AppendFindings | sre-agent/agents/supervisor_agent.py:58-67 | the loop appends exactly the findings section's parts |
| Supervisor.SupervisorAgent | sre-agent/agents/supervisor_agent.py:11-77 | with neither records nor symptoms, the fixed fallback report and no prompt; otherwise the prompt and the model's report in dict form; the prototype in Studio/sre-agent.py has the same fallback and shows records whole |
| Supervisor.SymptomNumbering | sre-agent/agents/supervisor_agent.py:48-54 | the k-th block carries the number k and the k-th symptom's fields |
| Triage.Anomalous | sre-agent/agents/triage_agent.py:52-55 | the reports with a truthy `is_anomalous`, in pod order |
| Triage.AnomalousMembers | sre-agent/agents/triage_agent.py:52-55 | a report is kept iff it is a report with a truthy flag |
| Triage.AnomalousEmpty | sre-agent/agents/triage_agent.py:57-60 | some report is anomalous iff the list is non-empty |
| Triage.AsObjects | sre-agent/agents/triage_agent.py:55 | the reports as JSON objects, one by one |
| Triage.CollectMetrics | sre-agent/agents/triage_agent.py:46-60 | the anomalous reports, then `pods_count` (their number) iff there are some and the `info` note iff there are none |
| Triage.GetTriageData | sre-agent/agents/triage_agent.py:23-66 | exactly the keys problematic_pods, slow_traces and problematic_metrics; the prototype in Studio/sre-agent.py adds `problematic_traces` |
| Triage.RenderAll | sre-agent/agents/triage_agent.py:83-97 | each part rendered in place |
| Triage.SelectParts | sre-agent/agents/triage_agent.py:78-97 | the parts the conditional appends produce; the prototype in Studio/sre-agent.py adds the error-traces section |
| Triage.TriagePrompt | sre-agent/agents/triage_agent.py:99 | the parts joined by blank lines |
| Triage.SectionsShown | sre-agent/agents/triage_agent.py:83-93 | pods iff no `info`; metrics iff no `info`; traces iff neither `info` nor `error` |
| Triage.PartsOrdered | sre-agent/agents/triage_agent.py:78-97 | the header comes first, and the parts keep the prompt order, each at most once |
| Triage.NoIssuesIffNothingShown | sre-agent/agents/triage_agent.py:96-97 | the no-issues note is added iff no section was |
| Triage.PromptStartsWithHeader | sre-agent/agents/triage_agent.py:78-81 | the prompt text starts with the header |
| Triage.MetricsShownIffAnomalous | sre-agent/agents/triage_agent.py:87-89 | the metrics section is shown iff some pod was anomalous |
| Planner.PodNames | sre-agent/agents/planner_agent.py:58-59 | the pod names, in lookup order |
| Planner.ResolveService | sre-agent/agents/planner_agent.py:39-43 | a pod resolves to its first listed service, a service to itself; a pod with no service fails |
| Planner.CollectPodNames | sre-agent/agents/planner_agent.py:58-59 | the loop collects the pod names in order |
| Planner.GetResourceDependencies | sre-agent/agents/planner_agent.py:22-75 | fails exactly when a pod has no service; otherwise the record the lookups give |
| Planner.DependenciesShape | sre-agent/agents/planner_agent.py:31-73 | resource name and type always; data key iff used services exist, one entry each in order; infra key iff a non-empty dict, one entry per item |
| Planner.BuiltRecordsKeepKeysNonEmpty | sre-agent/agents/planner_agent.py:50-73 | a key is only set with a non-empty list |
| Planner.NoneFoundIff | sre-agent/agents/planner_agent.py:123-130 | "None found" appears iff neither key is set; a built record shows at least one dependency line |
| Planner.BlockFrame | sre-agent/agents/planner_agent.py:115-132 | block k opens with its number and ends with the rule |
| Planner.PlannerAgent | sre-agent/agents/planner_agent.py:78-144 | no symptoms: no tasks and no prompt; otherwise every symptom enriched (failing if one cannot be), the prompt, and the model's tasks |
| Evaluation.GetOr | sre-agent/evaluation/evaluation.py:110 | `d.get(key, default)` |
| Evaluation.EvaluateDetection | sre-agent/evaluation/evaluation.py:13-26 | correct iff (the target is truthy) equals the verdict |
| Evaluation.NoFaultDetection | sre-agent/evaluation/evaluation.py:24-26 | with the target missing or falsy, a verdict is correct exactly when it equals `False` (`False` or `0`), and `True` is wrong |
| Evaluation.EvaluateLocalization | sre-agent/evaluation/evaluation.py:28-50 | no target: correct iff None or ""; non-string: false; else iff the target is a substring; a non-string target raises |
| Evaluation.EmptyTargetMatchesAll | sre-agent/evaluation/evaluation.py:50 | an empty target matches every string |
| Evaluation.TargetInListMatches | sre-agent/evaluation/evaluation.py:50 | a localization naming the target among others is correct |
| Evaluation.LocalizationString | sre-agent/evaluation/evaluation.py:112-116 | a list of strings is joined by ", ", anything else is "" |
| Evaluation.ListedTargetLocalized | sre-agent/evaluation/evaluation.py:112-116 | a localization listing the target among other string items joins into a string containing it, so it is correct |
| Evaluation.EvaluateRcaAnalysis | sre-agent/evaluation/evaluation.py:52-90 | over the daily limit, the fixed error without the judge; else the judge's verdict or the failure text |
| Evaluation.GuardSkipsJudge | sre-agent/evaluation/evaluation.py:63-67 | over the limit the result does not depend on the judge |
| Evaluation.FinalReportOf | sre-agent/evaluation/evaluation.py:110 | `report.get("final_report", {})`, which must be a dict |
| Evaluation.EvaluateExperiment | sre-agent/evaluation/evaluation.py:92-124 | exactly detection, localization, rca_score and rca_motivation: detection from the defaulted detection flag, localization as the check of the joined localization (default empty list) against the target, score and motivation as the judge verdict on the root cause (default "") against RCA_gt (default ""); an error exactly when final_report is not a dict, the localization does not join, or the target is neither absent, None nor a string |
| Evaluation.EmptyReportDefaults | sre-agent/evaluation/evaluation.py:110-118 | an empty report reads as no detection, empty localization and empty root cause: detection and localization hold exactly for an empty target, and the judge verdict is the one on an empty root cause |
| ConfigEditor.WithFlag | sre-agent/experiments_runner/config_editor_cli.py:145 | the entry with `execute` set, name and other keys kept |
| ConfigEditor.FlagKeepsSelection | sre-agent/experiments_runner/config_editor_cli.py:141-145 | setting the flag does not change which entries a bulk setter selects |
| ConfigEditor.Updated | sre-agent/experiments_runner/config_editor_cli.py:199-205 | the entries after a bulk setter, one for one |
| ConfigEditor.Changed | sre-agent/experiments_runner/config_editor_cli.py:201-204 | the files a bulk setter writes, at most one per entry |
| ConfigEditor.UpdatedSetsFlag | sre-agent/experiments_runner/config_editor_cli.py:199-223 | every selected entry's flag equals the request, others untouched, names and other keys kept |
| ConfigEditor.UpdateIdempotent | sre-agent/experiments_runner/config_editor_cli.py:201-204 | a second call with the same flag changes nothing and writes nothing |
| ConfigEditor.NothingChanged | sre-agent/experiments_runner/config_editor_cli.py:201 | no write means no change |
| ConfigEditor.ChangedMember | sre-agent/experiments_runner/config_editor_cli.py:201-204 | every selected entry whose flag differed is written |
| ConfigEditor.ChangedSource | sre-agent/experiments_runner/config_editor_cli.py:201-204 | every write is of a selected entry whose flag differed, in entry order |
| ConfigEditor.UpdatedKeepsNames | sre-agent/experiments_runner/config_editor_cli.py:200 | the file names and their order are kept |
| ConfigEditor.FirstToChange | sre-agent/experiments_runner/config_editor_cli.py:162-168 | the first entry that matches and whose flag differs |
| ConfigEditor.ScenarioByName | sre-agent/experiments_runner/config_editor_cli.py:181-187 | with distinct names, `set_scenario` changes exactly the named entry, only if its flag differs |
| ConfigEditor.ParseInt | sre-agent/experiments_runner/config_editor_cli.py:269 | `int(s)` succeeds exactly on a non-empty run of ASCII digits with an optional sign in front, giving the decimal value, negated after "-"; anything else is a ValueError |
| ConfigEditor.ParseIntRoundTrip | sre-agent/experiments_runner/config_editor_cli.py:269 | a number written in decimal reads back as itself |
| ConfigEditor.ParseSelection | sre-agent/experiments_runner/config_editor_cli.py:257-266 | on the stripped item, "+" enables and "-" disables with the number read from the stripped rest, and with no sign it toggles the number read from the whole item |
| ConfigEditor.TargetIndex | sre-agent/experiments_runner/config_editor_cli.py:269-270 | the 1-based number as an index, when in range |
| ConfigEditor.ApplyOne | sre-agent/experiments_runner/config_editor_cli.py:258-289 | one selection: the entries after it and the file written, if any |
| ConfigEditor.ApplyAll | sre-agent/experiments_runner/config_editor_cli.py:257-291 | the selections in order, the writes in order |
| ConfigEditor.OneSelection | sre-agent/experiments_runner/config_editor_cli.py:258 | applying a one-item input is applying that item |
| ConfigEditor.InvalidSelectionIgnored | sre-agent/experiments_runner/config_editor_cli.py:269-289 | a non-integer or out-of-range item changes nothing |
| ConfigEditor.ValidSelection | sre-agent/experiments_runner/config_editor_cli.py:270-283 | a valid item changes only its entry, to the requested flag; it writes iff the flag differed |
| ConfigEditor.ToggleAlwaysWrites | sre-agent/experiments_runner/config_editor_cli.py:275-283 | a bare number always flips, so it always writes |
| ConfigEditor.ToggleTwiceRestores | sre-agent/experiments_runner/config_editor_cli.py:275-283 | toggling the same boolean flag twice restores it and counts two writes |
| ConfigEditor.GroupKeys | sre-agent/experiments_runner/config_editor_cli.py:119-125 | the applications of the groups, in order |
| ConfigEditor.AppsInOrderMembers | sre-agent/experiments_runner/config_editor_cli.py:120-123 | an application has a group iff some scenario belongs to it |
| ConfigEditor.AppsInOrderDistinct | sre-agent/experiments_runner/config_editor_cli.py:122-123 | no application has two groups |
| ConfigEditor.PrefixAppNames | sre-agent/experiments_runner/config_editor_cli.py:121 | the application names of a prefix are strings |
| ConfigEditor.GroupExtend | sre-agent/experiments_runner/config_editor_cli.py:124 | a scenario of a known application is appended to its group |
| ConfigEditor.GroupAdd | sre-agent/experiments_runner/config_editor_cli.py:122-124 | a scenario of a new application opens its own group |
| ConfigEditor.FirstIs | sre-agent/experiments_runner/config_editor_cli.py:162-168 | the first match whose flag differs is the one the single setter finds |
| ConfigEditor.FindGroup | sre-agent/experiments_runner/config_editor_cli.py:122 | the position of the application's group, or the number of groups |
| ConfigEditor.ConfigurationEditor.constructor | sre-agent/experiments_runner/config_editor_cli.py:31-56 | the editor over the loaded files, nothing written yet |
| ConfigEditor.ConfigurationEditor.Store | sre-agent/experiments_runner/config_editor_cli.py:145-146 | the collection replaced, the other kept |
| ConfigEditor.UpdateEntries | sre-agent/experiments_runner/config_editor_cli.py:199-203 | the bulk loop over one collection yields exactly the updated entries and, in order, the names of the files it writes |
| ConfigEditor.ConfigurationEditor.SetWhere | sre-agent/experiments_runner/config_editor_cli.py:199-205 | the bulk loop: entries updated, files written in order, count = number written |
| ConfigEditor.ConfigurationEditor.SetAllAgents | sre-agent/experiments_runner/config_editor_cli.py:189-205 | every agent configuration's flag becomes the request; returns the number written |
| ConfigEditor.ConfigurationEditor.SetAllScenarios | sre-agent/experiments_runner/config_editor_cli.py:207-223 | every scenario's flag becomes the request; returns the number written |
| ConfigEditor.ConfigurationEditor.SetScenariosByApp | sre-agent/experiments_runner/config_editor_cli.py:127-149 | only the scenarios of the application, compared lower-cased |
| ConfigEditor.ConfigurationEditor.SetFirst | sre-agent/experiments_runner/config_editor_cli.py:162-168 | the single-setter loop: the first matching entry whose flag differs changes; true iff one changed |
| ConfigEditor.ConfigurationEditor.SetAgentConfig | sre-agent/experiments_runner/config_editor_cli.py:151-168 | by file name, `id` or `name`; at most one change, true iff one changed |
| ConfigEditor.ConfigurationEditor.SetScenario | sre-agent/experiments_runner/config_editor_cli.py:170-187 | by file name only; at most one change |
| ConfigEditor.ApplySelections | sre-agent/experiments_runner/config_editor_cli.py:257-284 | the selection loop yields the entries and the written files of the selections applied one after another |
| ConfigEditor.ConfigurationEditor.ApplyManualSelection | sre-agent/experiments_runner/config_editor_cli.py:242-291 | the selections applied in order to one collection; the count is the number of writes |
| ConfigEditor.ConfigurationEditor.GetUniqueApps | sre-agent/experiments_runner/config_editor_cli.py:112-125 | every file in exactly one group keyed by lower-cased application, groups by first appearance, names in order |
| AgentConfigs.NameLeIsPreorder | sre-agent/experiments_runner/get_agent_configurations.py:34 | file-name order is a total preorder, so `sorted` applies |
| AgentConfigs.Annotated | sre-agent/experiments_runner/get_agent_configurations.py:40 | the loaded dict with `_source_file` set to the file name, other keys kept |
| AgentConfigs.LoadAgentConfigurations | sre-agent/experiments_runner/get_agent_configurations.py:7-54 | missing directory gives []; otherwise files in sorted name order, each decoded and annotated dict kept when selected |
| AgentConfigs.LoadedProvenance | sre-agent/experiments_runner/get_agent_configurations.py:36-42 | every loaded config comes from one decoded file, carries its name and was accepted |
| AgentConfigs.LoadedAppend | sre-agent/experiments_runner/get_agent_configurations.py:36 | loading two listings one after the other loads their concatenation |
| AgentConfigs.UndecodableSkipped | sre-agent/experiments_runner/get_agent_configurations.py:48-51 | an undecodable file is skipped and later files are still loaded |
| AgentConfigs.LoadedInNameOrder | sre-agent/experiments_runner/get_agent_configurations.py:34-42 | files taken in name order give results in `_source_file` order |
| AgentConfigs.OnlyExecutableReturned | sre-agent/experiments_runner/get_agent_configurations.py:41-42 | every returned config is executable and `only_executable` was set |
| AgentConfigs.ResultInNameOrder | sre-agent/experiments_runner/get_agent_configurations.py:34-42 | the loader's result is in file-name order |
| AgentConfigs.NothingWithoutOnlyExecutable | sre-agent/experiments_runner/get_agent_configurations.py:41-46 | with `only_executable=False` the loader as written returns nothing |
| AgentConfigs.LoadedCongruent | sre-agent/experiments_runner/get_agent_configurations.py:41 | keep conditions that agree give the same list |
| AgentConfigs.LoadedComplete | sre-agent/experiments_runner/get_agent_configurations.py:36-42 | a decoded file is loaded whenever its dict is accepted |
| AgentConfigs.LoadAsDocumented | sre-agent/experiments_runner/get_agent_configurations.py:14-15 | as documented: without `only_executable` every decoded file is returned, annotated, in name order with nothing filtered out; with it, exactly what the loader returns; in both cases the `_source_file` names ascend |
| Jaeger.RootIndex | mcp-server/JaegerAPI.py:54-61 | the first span without references; none iff every span has references |
| Jaeger.FindRoot | mcp-server/JaegerAPI.py:55-58 | the loop finds the first root |
| Jaeger.FirstLine | mcp-server/JaegerAPI.py:87 | `stack.split('\n')[0]`: a prefix of the stack without a line break |
| Jaeger.ScanTags | mcp-server/JaegerAPI.py:72-76 | true iff some tag has key "error" and value exactly `True` |
| Jaeger.ScanLogs | mcp-server/JaegerAPI.py:80-87 | appends each error event's message, then its stack's first line |
| Jaeger.ScanErrors | mcp-server/JaegerAPI.py:70-87 | the error flag and the details of every error span |
| Jaeger.StartLeIsPreorder | mcp-server/JaegerAPI.py:94 | start-time order is a total preorder, so `sorted` applies |
| Jaeger.Services | mcp-server/JaegerAPI.py:99-100 | the known, non-empty service names of the spans, in order |
| Jaeger.Collapse | mcp-server/JaegerAPI.py:100-102 | equal neighbours collapsed to one |
| Jaeger.ServiceSequence | mcp-server/JaegerAPI.py:96-102 | the loop gives the collapsed services |
| Jaeger.ProcessTrace | mcp-server/JaegerAPI.py:50-114 | none iff no root; else id, root duration, error flag, " -> "-joined sequence, and the error message iff an error |
| Jaeger.NoErrorNoDetails | mcp-server/JaegerAPI.py:79-87 | without an error span there are no details |
| Jaeger.ErrorMessageShape | mcp-server/JaegerAPI.py:67-112 | the message is present iff an error; "; "-joined details, or "N/A" without details |
| Jaeger.CollapseNoRepeats | mcp-server/JaegerAPI.py:100-102 | no two equal neighbours |
| Jaeger.CollapseSameNames | mcp-server/JaegerAPI.py:100-102 | collapsing keeps exactly the names it was given |
| Jaeger.ServicesMembers | mcp-server/JaegerAPI.py:93-100 | a service appears iff some span of a known, named process belongs to it |
| Jaeger.SequenceShape | mcp-server/JaegerAPI.py:93-108 | no empty name, no equal neighbours, exactly the services of the spans |
| Jaeger.Kept | mcp-server/JaegerAPI.py:138-143 | the summaries kept, in order, filtered on errors when asked |
| Jaeger.Processed | mcp-server/JaegerAPI.py:138-139 | one result per fetched trace |
| Jaeger.GetProcessedTraces | mcp-server/JaegerAPI.py:116-147 | unknown service: only an error; failed or empty fetch: service, no traces, error; else traces and their count |
| Jaeger.KeptMembers | mcp-server/JaegerAPI.py:140-143 | a kept summary is a result, with an error when `only_errors` |
| Jaeger.KeptAllRooted | mcp-server/JaegerAPI.py:138-143 | when every trace has a root, the unfiltered list keeps all of them, in order |
| Jaeger.KeptUnfiltered | mcp-server/JaegerAPI.py:138-143 | without the filter, exactly the `None` results (traces without a root) are dropped and the rest keep their order |
| Jaeger.KeptTraces | mcp-server/JaegerAPI.py:138-145 | the returned traces are the summaries of the rooted traces, in order, filtered on errors when asked |
| Logs.FilterImportant | mcp-server/logAPI.py:73-76 | only lines with ERROR, WARN or CRITICAL, in order |
| Logs.FilterMembers | mcp-server/logAPI.py:76 | a line is kept iff it is a line of the log and has a keyword |
| Logs.GetPodLogs | mcp-server/logAPI.py:57-97 | unknown pod: the fixed message; no filter: the log; no match: the note then the log; else the count header and the lines |
| Logs.CountBounded | mcp-server/logAPI.py:82-84 | no keyword count exceeds the number of lines |
| Logs.CountsCover | mcp-server/logAPI.py:82-86 | the three counts add up to at least the number of lines |
| Logs.HeaderCounts | mcp-server/logAPI.py:80-90 | each count is at most N, their sum at least N, and no selected line has a line break |
| Logs.LabelSelectorAppend | mcp-server/logAPI.py:46 | the selector is the "k=v" pairs joined by "," |
| Logs.GetPodsFromService | mcp-server/logAPI.py:32-55 | unknown service: an error and no pods; else one entry per listed pod, in order |
| StudioAgent.AllowedTools | Studio/sre-agent.py:436-439 | the allowed tools, at most as many as offered |
| StudioAgent.GetMcpTools | Studio/sre-agent.py:428-441 | the loop keeps the allowed tools in order |
| StudioAgent.FourteenTools | Studio/sre-agent.py:431-434 | fourteen distinct allowed names |
| StudioAgent.AllowedToolsMembers | Studio/sre-agent.py:437-439 | a tool is kept iff it is offered and its name is allowed |
| StudioAgent.AllAllowedKept | Studio/sre-agent.py:437-439 | a server that offers only allowed tools keeps them all |
| StudioAgent.MaxToolCallsSetting | Studio/sre-agent.py:613 | 8 when unset, else `int` of the value; a value `int` rejects raises |
| StudioAgent.StudioBudgetStatus | Studio/sre-agent.py:602-634 | the package's budget note on the submission-free count and the environment's budget |
| StudioAgent.DefaultBudgetZones | Studio/sre-agent.py:613-634 | with the default, no note below 6 calls and the exceeded note from 8 |
| StudioAgent.PaddedBudget | Studio/sre-agent.py:613 | a budget written with surrounding whitespace reads as its number |
| StudioAgent.StudioAfterTools | Studio/sre-agent.py:711-717 | "format-output" iff the first record has diagnosis and reasoning, else "summarise" |
| StudioAgent.FreshWorkerAlwaysSummarises | Studio/sre-agent.py:711-717 | a worker's own tool runs never reach format-output by this rule |
| ReactStructured.SubmissionText | studio/react_sre_strctured.py:183 | "Diagnosis:\n" + diagnosis + "\n\nReasoning:\n" then the reasoning; the mitigation prototype's submission text is the same |
| ReactStructured.SubmissionTextInjective | studio/react_sre_strctured.py:183 | a one-line diagnosis and the reasoning can be read back from the response |
| ReactStructured.AfterTools | studio/react_sre_strctured.py:303-307 | "tool-call-stats" iff the response is truthy, else "summarise" |
| ReactStructured.SubmissionEndsLoop | studio/react_sre_strctured.py:183-187 | after a submission the loop goes to the statistics |
| ReactStructured.Successors | studio/react_sre_strctured.py:195-322 | summarise returns to the agent; the statistics follow only a tool run with a response; format-output follows the statistics or, by the submission tool's `goto`, the submission itself, and nothing else |
| ReactStructured.FormatAfterStats | studio/react_sre_strctured.py:195-322 | format-output comes straight after the submission tool, or two steps after a tool run that left a response |
| ReactStructured.SubmissionFormatsTwice | studio/react_sre_strctured.py:195-322 | after the submission the graph forks to the statistics and format-output, and the statistics lead to format-output again |
| ReactStructured.Summarise | studio/react_sre_strctured.py:151-163 | exactly the last two messages; one insight and one step; the mitigation prototype's summariser is the same |
| ReactStructured.CountToolCallStats | studio/react_sre_strctured.py:234-253 | every named call counted, submission included |
| ReactStructured.SubmissionCounted | studio/react_sre_strctured.py:245-248 | a submission call gets a count of at least 1 |
| ReactStructured.GetStatsStr | studio/react_sre_strctured.py:221-231 | "No tool calls stats" for no statistics, else header, separator and one row per tool in order |
| ReactStructured.TableLines | studio/react_sre_strctured.py:226-228 | the table has exactly two header lines plus one line per tool |
| ReactStructured.CommonSections | studio/react_sre_strctured.py:261-273 | the title, steps, insights and final-report sections |
| ReactStructured.ReportSections | studio/react_sre_strctured.py:261-277 | the common sections, then the statistics |
| ReactStructured.ReportOrder | studio/react_sre_strctured.py:261-277 | sections in the order steps, insights, final report ("> " first), statistics |
| ReactStructured.FormatResponse | studio/react_sre_strctured.py:255-279 | the report is the concatenation of its sections |
| ReactMitigation.ReadOnlyTools | studio/react_sre_strctured_mitigation.py:84-86 | the allowed tools, in order |
| ReactMitigation.ChromaTools | studio/react_sre_strctured_mitigation.py:88-89 | the not-allowed tools with "chroma" in their name, in order |
| ReactMitigation.GetMcpTools | studio/react_sre_strctured_mitigation.py:74-92 | the loop builds the two lists |
| ReactMitigation.ToolPartition | studio/react_sre_strctured_mitigation.py:83-89 | tools iff allowed; chroma iff not allowed and named chroma; never both; the rest are dropped |
| ReactMitigation.ListsWithinOffer | studio/react_sre_strctured_mitigation.py:83-89 | together the lists are no longer than the offer |
| ReactMitigation.AfterTools | studio/react_sre_strctured_mitigation.py:337-341 | "generate-mitigation-plan" iff the response is truthy, else "summarise" |
| ReactMitigation.NewIncidentCondition | studio/react_sre_strctured_mitigation.py:353-357 | END iff the incident happened before, else "store-incident-report" |
| ReactMitigation.DeclaredSuccessors | studio/react_sre_strctured_mitigation.py:327-371 | along the declared edges: the plan only after a tool run with a response, the format only after the plan, the store only after formatting a new incident |
| ReactMitigation.Successors | studio/react_sre_strctured_mitigation.py:189-371 | the declared edges plus format-output after a submission by its `goto`: the format follows the plan or the submission, the store only a formatted new incident |
| ReactMitigation.StoredOnlyNew | studio/react_sre_strctured_mitigation.py:337-371 | along the declared edges, a stored report is a new incident, formatted from a plan after a tool run that left a response |
| ReactMitigation.StoredAfterFormat | studio/react_sre_strctured_mitigation.py:189-371 | along the successors as the graph runs, a store follows format-output for a new incident, reached from the plan or straight after the submission; on the second path format-output fails first (FormatBeforePlan) |
| ReactMitigation.FormatBeforePlan | studio/react_sre_strctured_mitigation.py:189-371 | the run start, agent, submission, format-output follows the successors with no plan node before format-output, so the plan is unset there and the format step fails with the KeyError on `mitigation_plan_overview` |
| ReactMitigation.PlanBefore | studio/react_sre_strctured_mitigation.py:272-293 | the plan is in the state exactly when the plan node has run, since only it writes the overview and the steps |
| ReactMitigation.FormatStep | studio/react_sre_strctured_mitigation.py:240-270 | without a plan, the KeyError of line 260 and nothing else; with one, the report opening with the title and made of the sections in order |
| ReactMitigation.FormatAfterPlan | studio/react_sre_strctured_mitigation.py:343-370 | along the declared edges format-output always comes straight after the plan node, so the plan is set and the report is built |
| ReactMitigation.NumberedLines | studio/react_sre_strctured_mitigation.py:264-265 | split at line breaks, the step list is "i. step" for i from 1, in order |
| ReactMitigation.MitigationSections | studio/react_sre_strctured_mitigation.py:244-265 | the common sections, the strategy and the numbered steps |
| ReactMitigation.MitigationReportOrder | studio/react_sre_strctured_mitigation.py:244-265 | steps, insights, final report, strategy, detailed steps |
| ReactMitigation.FormatResponse | studio/react_sre_strctured_mitigation.py:240-267 | the loop-built report is the concatenation of its sections |
| Values.Split | mcp-server/logAPI.py:70 | `str.split` with one separator: at least one piece |
| Values.SplitPiecesFree | mcp-server/logAPI.py:70 | no piece holds the separator |
| Values.JoinSplit | mcp-server/logAPI.py:93 | joining the pieces gives back the text |
| Values.JoinAppend | mcp-server/logAPI.py:46 | one more item adds the separator and the item |
| Values.StripIsTrimmedSlice | studio/react_sre_strctured.py:265 | `str.strip`: a slice of the input with only whitespace cut off before and after it, and no whitespace at either of its ends |
| Values.Lower | sre-agent/experiments_runner/config_editor_cli.py:121 | `str.lower`: same length, each letter A-Z replaced by its lower case and every other character kept |
| Values.NatToString | studio/react_sre_strctured.py:228 | decimal digits of a number |
| Sorting.SortBy | mcp-server/JaegerAPI.py:94 | `sorted` with a key: an insertion sort, keeping the length; ordering, permutation and stability are proved by `SortBySorted`, `SortByPerm` and `SortByStable` |
| Sorting.SortByPerm | mcp-server/JaegerAPI.py:94 | the sorted list is a permutation |
| Sorting.SortBySorted | mcp-server/JaegerAPI.py:94 | the sorted list is ordered |
| Sorting.SortByStable | mcp-server/JaegerAPI.py:94 | `sorted` is stable: for every element, the elements comparing equal to it come out in input order, so spans with the same start time keep their order |
| Sorting.StrLeIsPreorder | sre-agent/experiments_runner/get_agent_configurations.py:34 | string order is a total preorder |
| Sorting.IntLeIsPreorder | sre-agent/models/reducers.py:22 | integer order is a total preorder |

## Left out

- LLM calls (`with_structured_output`, `bind_tools`, `create_react_agent`, the judge) are parameters: their replies are unconstrained values of the schema types.
- Cluster, Jaeger, Prometheus and Neo4j reads, and the MCP client's tool listing, are parameters. So are the file listing, file decoding and the token usage of the day.
- `json.dumps` is a parameter. The models do not render JSON text, and key order inside dumped JSON is not modelled.
- Jaeger.ProcessTrace: keeps the root span's integer duration in microseconds instead of the float `latency_ms = duration / 1000.0`.
- Jaeger log field values are strings in the model. The source's `.split` on the stack would raise for a non-string value, and that path is not modelled.
- Logs.GetPodsFromService: a service whose selector is missing (`None`) would raise in the source. The model takes the selector as a list of pairs, so it is never missing.
- ConfigEditor.ParseInt: accepts an optional sign and ASCII digits only. Python `int` also takes underscores between digits and non-ASCII digits.
- Values.Lower: only ASCII letters are lower-cased. There is no Unicode case folding.
- Triage.Anomalous: requires every metric report to carry "is_anomalous". The source raises a KeyError for one that lacks it (sre-agent/agents/triage_agent.py:54, Studio/sre-agent.py:160), and that error path is not modelled.
- Triage.CollectMetrics: requires "is_anomalous" in every report, for the same reason as Triage.Anomalous.
- Triage.GetTriageData: requires "is_anomalous" in every report, for the same reason as Triage.Anomalous.
- ConfigEditor.ConfigurationEditor.SetScenariosByApp: requires every `app_name`, or `scenario` when there is no `app_name`, to be a string. Otherwise `.lower()` raises an AttributeError (sre-agent/experiments_runner/config_editor_cli.py:142), possibly after earlier scenarios were already written; that path is not modelled.
- ConfigEditor.ConfigurationEditor.GetUniqueApps: requires the same string app names, since `.lower()` raises an AttributeError otherwise (sre-agent/experiments_runner/config_editor_cli.py:121); that path is not modelled.
- Reducers.MergeRcaAnalyses: only integer priorities (and booleans read as none) are filed. Python would also file string or float priorities, and `sorted` would raise on mixed types.
- File writes (`_save_json_file`) are a list of written file names. Display functions (`display_agent_configs`, `display_scenarios`, the click commands and their echo output) and `_get_scenario_by_filename` (a dict lookup used only by the CLI) are left out, because they only print or look up.
- Parallel execution of the `Send` fan-out is LangGraph's. Only the router's output and the concatenation reducer are modelled.
- A tool's `Command(goto=...)` runs beside the static edges. In both ReAct graphs it is an extra successor of the tool node. In the package's worker, RcaAgent.NextNode omits it, because after a submission the conditional edge picks the same format-output node. LangGraph's supersteps are not modelled: a run is one path through the successors, and a node that raises does not cut it short there. The failure of the mitigation graph's format-output without a plan is stated by ReactMitigation.FormatStep; the KeyError `new_incident_condition` would raise on an unset `is_already_happened` is not modelled.
- StudioAgent.FreshWorkerAlwaysSummarises: states the routing rule only; the Studio worker's node graph, where the `goto` is the only way to format-output, is not modelled.
- `store_incident_report` writes to ChromaDB. It is not modelled beyond being the target of the new-incident edge.
- The prompt templates in sre-agent/prompts are opaque strings. The models state which values fill them, not the full rendered text.
- The Studio prototype's copies of the package's helpers, router, summariser, triage and supervisor are modelled once, by the package's members.

## Findings

| source | as written | input that shows it | evidently intended | confidence | as-written member | corrected member |
|---|---|---|---|---|---|---|
| sre-agent/experiments_runner/get_agent_configurations.py:41-46 | a config is kept only when `execute` is truthy and `only_executable` is true, so `only_executable=False` returns nothing | `only_executable=False` with one file `{"execute": true}`: the result is `[]` | the docstring (lines 14-15): with `only_executable=False`, include all configurations | high; not executed | AgentConfigs.NothingWithoutOnlyExecutable | AgentConfigs.LoadAsDocumented |
| studio/react_sre_strctured_mitigation.py:216 | the submission tool's `Command` jumps to format-output beside the conditional edge to the plan | a run whose tool step is the submission: format-output is reached with no plan before it, reads `state['mitigation_plan_overview']` (line 260) while it is unset, and fails with a KeyError; the run stops there, before any store | the submission ends the loop through the plan, as the conditional edge routes it (lines 337-349), so format-output always finds the plan | plausible; not executed | ReactMitigation.FormatBeforePlan | ReactMitigation.FormatAfterPlan |
