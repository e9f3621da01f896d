// The RCA worker: the budget note in its prompt, the window of messages its
// summariser reads, the submission tool, the rule that routes after a tool
// run, the record it emits, and the edges of its loop. The LLM's replies are
// parameters.

module RcaAgent {
  import opened Values
  import opened Schemas
  import opened Helpers

  /** The worker's state. A missing `rca_output` is the empty dict. */
  datatype WorkerState = WorkerState(
    messages: seq<Message>,
    appSummary: string,
    targetNamespace: string,
    task: RCATask,
    insights: seq<string>,
    prevSteps: seq<string>,
    rcaOutput: map<string, Value>,
    analyses: seq<Value>)

  /** `MAX_TOOL_CALLS` when the environment does not set it. */
  const DefaultMaxToolCalls: int := 8

  // -----------------------------------------------------------------------
  // The budget note

  const BudgetMark: string := "\n\U{26a0}\U{fe0f} **BUDGET "
  const ExceededHead: string := BudgetMark + "EXCEEDED**: You have made "
  const WarningHead: string := BudgetMark + "WARNING**: You have made "
  const ExceededTail: string := " tool calls.\n\nYou MUST now call submit_final_diagnosis with your best conclusion based on the evidence gathered so far.\nDo NOT make any more tool calls. Submit your diagnosis immediately.\n"
  const WarningTail: string := " tool calls. You should prepare to submit your diagnosis soon.\n"

  /** The two openings differ right after the common mark. */
  lemma HeadsDiffer()
    ensures |ExceededHead| > |BudgetMark| && |WarningHead| > |BudgetMark|
    ensures ExceededHead[|BudgetMark|] == 'E' && WarningHead[|BudgetMark|] == 'W'
  {
  }

  /**
   * The budget note: the "exceeded" text from the budget on, the "warning"
   * text in the two calls before it, and nothing below that. The three
   * texts are told apart by their opening, so exactly one zone applies.
   */
  function BudgetStatus(count: nat, maxToolCalls: int): (r: string)
    ensures IsPrefix(ExceededHead, r) <==> count >= maxToolCalls
    ensures IsPrefix(WarningHead, r) <==> maxToolCalls - 2 <= count < maxToolCalls
    ensures r == "" <==> count < maxToolCalls - 2
  {
    var used := IntToString(count) + "/" + IntToString(maxToolCalls);
    HeadsDiffer();
    var n := |BudgetMark|;
    if count >= maxToolCalls then
      var r := ExceededHead + (used + ExceededTail);
      assert r[..|ExceededHead|] == ExceededHead;
      assert r[n] == 'E';
      r
    else if count >= maxToolCalls - 2 then
      var r := WarningHead + (used + WarningTail);
      assert r[..|WarningHead|] == WarningHead;
      assert r[n] == 'W';
      r
    else ""
  }

  /** The tools named in the task, or an invitation to choose when it names none. */
  function SuggestedToolsStr(tools: seq<string>): (r: string)
    ensures tools == [] ==> r == "Use your best judgment"
    ensures tools != [] ==> r == tools[0] + Concat(seq(|tools| - 1, i requires 0 <= i < |tools| - 1 => ", " + tools[i + 1]))
  {
    if |tools| > 0 then
      JoinAsConcat(", ", tools);
      Join(", ", tools)
    else "Use your best judgment"
  }

  /** The values the worker's prompt template is filled with. */
  datatype AgentPrompt = AgentPrompt(
    prevSteps: string,
    insights: string,
    appSummary: string,
    targetNamespace: string,
    investigationGoal: string,
    resourceType: string,
    targetResource: string,
    suggestedTools: string,
    investigationBudget: int,
    toolCallsCount: nat,
    budgetStatus: string)

  /**
   * `rcaAgent` up to the LLM call: the count it reports leaves out the
   * submission tool, and the budget note follows that count.
   */
  method RcaAgentPrompt(state: WorkerState, maxToolCalls: int) returns (p: AgentPrompt)
    ensures p.toolCallsCount == NonSubmissionCount(state.messages)
    ensures p.budgetStatus == BudgetStatus(NonSubmissionCount(state.messages), maxToolCalls)
    ensures p.investigationBudget == maxToolCalls
    ensures p.insights == InsightsStr(state.insights) && p.prevSteps == PrevStepsStr(state.prevSteps)
    ensures p.suggestedTools == SuggestedToolsStr(state.task.suggestedTools)
    ensures p.investigationGoal == state.task.investigationGoal && p.targetResource == state.task.targetResource
    ensures p.resourceType == ResourceTypeName(state.task.resourceType)
    ensures p.appSummary == state.appSummary && p.targetNamespace == state.targetNamespace
  {
    var toolCallCount := CountNonSubmissionToolCalls(state.messages);
    var insightsStr := InsightsStr(state.insights);
    var prevStepStr := PrevStepsStr(state.prevSteps);
    var task := state.task;
    var suggestedToolsStr := SuggestedToolsStr(task.suggestedTools);
    var budgetStatus := BudgetStatus(toolCallCount, maxToolCalls);
    p := AgentPrompt(prevStepStr, insightsStr, state.appSummary, state.targetNamespace,
      task.investigationGoal, ResourceTypeName(task.resourceType), task.targetResource,
      suggestedToolsStr, maxToolCalls, toolCallCount, budgetStatus);
  }

  // -----------------------------------------------------------------------
  // The summariser

  /** `messages[-2:]` */
  function LastTwo(messages: seq<Message>): (r: seq<Message>)
    ensures |r| == if |messages| < 2 then |messages| else 2
    ensures IsSuffixOf(r, messages)
  {
    if |messages| < 2 then messages else messages[|messages| - 2..]
  }

  predicate IsSuffixOf(w: seq<Message>, messages: seq<Message>)
  {
    |w| <= |messages| && messages[|messages| - |w|..] == w
  }

  /**
   * The messages the summariser reads: from the last AI message on when
   * there is one (so the window opens with an AI message and holds no
   * other), else the last two.
   */
  method SummariseWindow(messages: seq<Message>) returns (window: seq<Message>)
    ensures IsSuffixOf(window, messages)
    ensures (exists i :: 0 <= i < |messages| && messages[i].AI?) ==>
              window != [] && window[0].AI? && forall j :: 0 < j < |window| ==> !window[j].AI?
    ensures (forall i :: 0 <= i < |messages| ==> !messages[i].AI?) ==> window == LastTwo(messages)
  {
    var lastAiIdx: Option<nat> := None;
    var i := |messages|;
    while i > 0 && lastAiIdx.None?
      invariant 0 <= i <= |messages|
      invariant lastAiIdx.None? ==> forall j :: i <= j < |messages| ==> !messages[j].AI?
      invariant lastAiIdx.Some? ==> lastAiIdx.value < |messages| && messages[lastAiIdx.value].AI?
      invariant lastAiIdx.Some? ==> forall j :: lastAiIdx.value < j < |messages| ==> !messages[j].AI?
      decreases i
    {
      i := i - 1;
      if messages[i].AI? {
        lastAiIdx := Some(i);
      }
    }
    if lastAiIdx.Some? {
      window := messages[lastAiIdx.value..];
    } else {
      window := LastTwo(messages);
    }
  }

  /** What the summariser reads: the two bullet lists and the window. */
  datatype SummaryPrompt = SummaryPrompt(prevSteps: string, insights: string, lastMessages: seq<Message>)

  /** The state's lists after a summarisation step: `operator.add` appends the step's one-element lists. */
  function ApplySummary(state: WorkerState, data: UpdateAgentData): (s: WorkerState)
    ensures |s.insights| == |state.insights| + 1 && |s.prevSteps| == |state.prevSteps| + 1
  {
    state.(insights := state.insights + [data.insight], prevSteps := state.prevSteps + [data.prevStep])
  }

  /** `summarise`: the LLM's reply `data` becomes exactly one new insight and one new step. */
  method Summarise(state: WorkerState, data: UpdateAgentData) returns (prompt: SummaryPrompt, newInsights: seq<string>, newSteps: seq<string>)
    ensures prompt.insights == InsightsStr(state.insights) && prompt.prevSteps == PrevStepsStr(state.prevSteps)
    ensures IsSuffixOf(prompt.lastMessages, state.messages)
    ensures (exists i :: 0 <= i < |state.messages| && state.messages[i].AI?) ==>
              prompt.lastMessages != [] && prompt.lastMessages[0].AI? &&
              forall j :: 0 < j < |prompt.lastMessages| ==> !prompt.lastMessages[j].AI?
    ensures (forall i :: 0 <= i < |state.messages| ==> !state.messages[i].AI?) ==> prompt.lastMessages == LastTwo(state.messages)
    ensures newInsights == [data.insight] && newSteps == [data.prevStep]
    ensures ApplySummary(state, data).insights == state.insights + newInsights
    ensures ApplySummary(state, data).prevSteps == state.prevSteps + newSteps
  {
    var lastMessages := SummariseWindow(state.messages);
    prompt := SummaryPrompt(PrevStepsStr(state.prevSteps), InsightsStr(state.insights), lastMessages);
    newInsights := [data.insight];
    newSteps := [data.prevStep];
  }

  /** Every summarisation step grows the lists by one entry each and keeps the earlier ones. */
  lemma {:induction false} SummariesAccumulate(state: WorkerState, steps: seq<UpdateAgentData>)
    ensures |ApplyAll(state, steps).insights| == |state.insights| + |steps|
    ensures |ApplyAll(state, steps).prevSteps| == |state.prevSteps| + |steps|
    ensures ApplyAll(state, steps).insights[..|state.insights|] == state.insights
    ensures forall k :: 0 <= k < |steps| ==> ApplyAll(state, steps).insights[|state.insights| + k] == steps[k].insight
  {
    if steps != [] {
      var init := steps[..|steps| - 1];
      SummariesAccumulate(state, init);
      var before := ApplyAll(state, init);
      assert ApplyAll(state, steps).insights == before.insights + [steps[|steps| - 1].insight];
      forall k | 0 <= k < |steps| ensures ApplyAll(state, steps).insights[|state.insights| + k] == steps[k].insight {
        if k < |init| {
          assert init[k] == steps[k];
        }
      }
    }
  }

  function ApplyAll(state: WorkerState, steps: seq<UpdateAgentData>): WorkerState
  {
    if steps == [] then state else ApplySummary(ApplyAll(state, steps[..|steps| - 1]), steps[|steps| - 1])
  }

  // -----------------------------------------------------------------------
  // The submission tool and the routing after a tool run

  /** What `submit_final_diagnosis` writes into `rca_output`. */
  function SubmitFinalDiagnosis(diagnosis: string, reasoning: string): (out: map<string, Value>)
    ensures out.Keys == {"diagnosis", "reasoning"}
    ensures out["diagnosis"] == Str(diagnosis) && out["reasoning"] == Str(reasoning)
  {
    map["diagnosis" := Str(diagnosis), "reasoning" := Str(reasoning)]
  }

  /** `after_tools_condition`: format the record once `rca_output` is non-empty, else summarise. */
  function AfterTools(rcaOutput: map<string, Value>): (next: string)
    ensures next == "format-output" || next == "summarise"
    ensures next == "format-output" <==> rcaOutput != map[]
  {
    if rcaOutput != map[] then "format-output" else "summarise"
  }

  /** After the submission tool has run, the worker goes on to format its record. */
  lemma SubmissionLeadsToFormat(diagnosis: string, reasoning: string)
    ensures AfterTools(SubmitFinalDiagnosis(diagnosis, reasoning)) == "format-output"
  {
    assert "diagnosis" in SubmitFinalDiagnosis(diagnosis, reasoning);
  }

  // -----------------------------------------------------------------------
  // The emitted record

  /** The per-tool counts as a dict. */
  function StatsObject(t: seq<(string, nat)>): (v: Value)
    ensures v.Obj? && forall k :: k in v.fields <==> k in KeysOf(t)
  {
    Obj(map k | k in KeysOf(t) :: Num(CountOf(t, k)))
  }

  const AddedKeys: set<string> := {"task", "insights", "steps_performed", "tools_stats"}

  /**
   * `format_response`: a one-element list holding `rca_output` with the
   * task, the insights, the steps and the per-tool counts written into it;
   * every other key of `rca_output` keeps its value.
   */
  method FormatResponse(state: WorkerState) returns (analyses: seq<Value>)
    ensures |analyses| == 1 && analyses[0].Obj?
    ensures analyses[0].fields.Keys == state.rcaOutput.Keys + AddedKeys
    ensures forall k :: k in state.rcaOutput && k !in AddedKeys ==> analyses[0].fields[k] == state.rcaOutput[k]
    ensures analyses[0].fields["task"] == Obj(TaskRecord(state.task))
    ensures analyses[0].fields["insights"] == StrList(state.insights)
    ensures analyses[0].fields["steps_performed"] == StrList(state.prevSteps)
    ensures analyses[0].fields["tools_stats"] == StatsObject(Tally(CalledNames(state.messages)))
  {
    var finalReport := state.rcaOutput;
    var task := state.task;
    finalReport := finalReport["task" := Obj(TaskRecord(task))];
    finalReport := finalReport["insights" := StrList(state.insights)];
    finalReport := finalReport["steps_performed" := StrList(state.prevSteps)];
    var stats := CountToolCalls(state.messages);
    finalReport := finalReport["tools_stats" := StatsObject(stats)];
    RecordFields(state.rcaOutput, Obj(TaskRecord(task)), StrList(state.insights), StrList(state.prevSteps), StatsObject(stats));
    analyses := [Obj(finalReport)];
  }

  /** Writing the four entries into `rca_output` in turn. */
  lemma RecordFields(out: map<string, Value>, task: Value, insights: Value, steps: Value, stats: Value)
    ensures var f := out["task" := task]["insights" := insights]["steps_performed" := steps]["tools_stats" := stats];
      && f.Keys == out.Keys + AddedKeys
      && (forall k :: k in out && k !in AddedKeys ==> f[k] == out[k])
      && f["task"] == task && f["insights"] == insights && f["steps_performed"] == steps && f["tools_stats"] == stats
  {
  }

  /** Every tool the worker called by name has its count in the record. */
  lemma StatsCoverCalls(messages: seq<Message>, name: string)
    requires name in CalledNames(messages)
    ensures name in StatsObject(Tally(CalledNames(messages))).fields
    ensures StatsObject(Tally(CalledNames(messages))).fields[name] == Num(multiset(CalledNames(messages))[name])
  {
  }

  // -----------------------------------------------------------------------
  // The worker's loop

  datatype WorkerNode = Start | Agent | ToolRun | SummariseNode | FormatOutput | End

  /** `tools_condition`: run the tools when the last message is an AI message with tool calls, else stop. */
  predicate WantsTools(messages: seq<Message>)
  {
    messages != [] && messages[|messages| - 1].AI? && messages[|messages| - 1].toolCalls.Some?
      && messages[|messages| - 1].toolCalls.value != []
  }

  /** The successor of a node, given the messages and `rca_output` at that point. */
  function NextNode(node: WorkerNode, messages: seq<Message>, rcaOutput: map<string, Value>): (next: WorkerNode)
    ensures node == SummariseNode ==> next == Agent
    ensures next == FormatOutput <==> node == ToolRun && rcaOutput != map[]
  {
    match node
    case Start => Agent
    case Agent => if WantsTools(messages) then ToolRun else End
    case ToolRun => if AfterTools(rcaOutput) == "format-output" then FormatOutput else SummariseNode
    case SummariseNode => Agent
    case FormatOutput => End
    case End => End
  }

  /** A run of the worker: each node is followed by the successor the state at that point picks. */
  ghost predicate IsRun(nodes: seq<WorkerNode>, msgs: seq<seq<Message>>, outs: seq<map<string, Value>>)
  {
    && |msgs| == |nodes| && |outs| == |nodes|
    && (forall k :: 0 <= k < |nodes| - 1 ==> nodes[k + 1] == NextNode(nodes[k], msgs[k], outs[k]))
  }

  /**
   * The tool count plays no part in routing: a run reaches `format-output`
   * only from a tool run after which `rca_output` is non-empty, and
   * otherwise it ends only when the model stops asking for tools.
   */
  lemma {:induction false} RunEnds(nodes: seq<WorkerNode>, msgs: seq<seq<Message>>, outs: seq<map<string, Value>>, k: nat)
    requires IsRun(nodes, msgs, outs) && 0 < k < |nodes|
    ensures nodes[k] == FormatOutput && nodes[k - 1] != FormatOutput ==> nodes[k - 1] == ToolRun && outs[k - 1] != map[]
    ensures nodes[k] == End && nodes[k - 1] != End ==>
              nodes[k - 1] == FormatOutput || (nodes[k - 1] == Agent && !WantsTools(msgs[k - 1]))
  {
    assert nodes[k] == NextNode(nodes[k - 1], msgs[k - 1], outs[k - 1]);
  }

  /** A worker whose model answers without a tool call ends with no record. */
  lemma EndWithoutRecord(state: WorkerState)
    requires !WantsTools(state.messages)
    ensures NextNode(Agent, state.messages, state.rcaOutput) == End
  {
  }
}
