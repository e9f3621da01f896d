// The ReAct prototype extended with a mitigation planner: the same
// investigation loop, then a plan, then a report that lists the plan's steps
// and is stored as a new incident unless the planner recognised it. Its
// submission tool and summariser are the ones of the single-agent prototype.

module ReactMitigation {
  import opened Values
  import opened Helpers
  import StudioAgent
  import ReactStructured

  // -----------------------------------------------------------------------
  // The two tool lists

  const MitigationToolsAllowed: seq<string> := ["kubectl_get", "kubectl_describe", "kubectl_logs", "explain_resource", "list_api_resources", "ping"]

  /** A tool that goes to the ChromaDB list: not allowed, but "chroma" in its name. */
  predicate IsChromaTool(t: StudioAgent.McpTool)
  {
    t.name !in MitigationToolsAllowed && Contains(t.name, "chroma")
  }

  /** The allowed tools, in order. */
  function ReadOnlyTools(mcpTools: seq<StudioAgent.McpTool>): (r: seq<StudioAgent.McpTool>)
    ensures |r| <= |mcpTools|
  {
    if mcpTools == [] then []
    else
      var n := |mcpTools| - 1;
      ReadOnlyTools(mcpTools[..n]) + (if mcpTools[n].name in MitigationToolsAllowed then [mcpTools[n]] else [])
  }

  /** The ChromaDB tools, in order. */
  function ChromaTools(mcpTools: seq<StudioAgent.McpTool>): (r: seq<StudioAgent.McpTool>)
    ensures |r| <= |mcpTools|
  {
    if mcpTools == [] then []
    else
      var n := |mcpTools| - 1;
      ChromaTools(mcpTools[..n]) + (if IsChromaTool(mcpTools[n]) then [mcpTools[n]] else [])
  }

  /** `get_MCP_tools`: one pass that sorts each tool into the allowed list, the ChromaDB list or neither. */
  method GetMcpTools(mcpTools: seq<StudioAgent.McpTool>) returns (tools: seq<StudioAgent.McpTool>, chromaTools: seq<StudioAgent.McpTool>)
    ensures tools == ReadOnlyTools(mcpTools)
    ensures chromaTools == ChromaTools(mcpTools)
  {
    tools := [];
    chromaTools := [];
    for i := 0 to |mcpTools|
      invariant tools == ReadOnlyTools(mcpTools[..i])
      invariant chromaTools == ChromaTools(mcpTools[..i])
    {
      assert mcpTools[..i + 1][..i] == mcpTools[..i];
      if mcpTools[i].name in MitigationToolsAllowed {
        tools := tools + [mcpTools[i]];
      } else if Contains(mcpTools[i].name, "chroma") {
        chromaTools := chromaTools + [mcpTools[i]];
      }
    }
    assert mcpTools[..|mcpTools|] == mcpTools;
  }

  /**
   * Where a tool lands: in the allowed list exactly when its name is
   * allowed, in the ChromaDB list exactly when it is not allowed and names
   * "chroma", so in at most one of them; any other tool is dropped.
   */
  lemma {:induction false} ToolPartition(mcpTools: seq<StudioAgent.McpTool>, t: StudioAgent.McpTool)
    ensures t in ReadOnlyTools(mcpTools) <==> t in mcpTools && t.name in MitigationToolsAllowed
    ensures t in ChromaTools(mcpTools) <==> t in mcpTools && IsChromaTool(t)
    ensures !(t in ReadOnlyTools(mcpTools) && t in ChromaTools(mcpTools))
    ensures t in mcpTools && t !in ReadOnlyTools(mcpTools) && t !in ChromaTools(mcpTools) ==>
              t.name !in MitigationToolsAllowed && !Contains(t.name, "chroma")
  {
    if mcpTools != [] {
      var n := |mcpTools| - 1;
      ToolPartition(mcpTools[..n], t);
      assert mcpTools == mcpTools[..n] + [mcpTools[n]];
    }
  }

  /** The two lists together are never longer than what the servers offer. */
  lemma {:induction false} ListsWithinOffer(mcpTools: seq<StudioAgent.McpTool>)
    ensures |ReadOnlyTools(mcpTools)| + |ChromaTools(mcpTools)| <= |mcpTools|
  {
    if mcpTools != [] {
      ListsWithinOffer(mcpTools[..|mcpTools| - 1]);
    }
  }

  // -----------------------------------------------------------------------
  // Routing

  /** LangGraph's name for the end of the graph. */
  const EndName: string := "__end__"

  /** `after_tools_condition`: plan the mitigation once a response is set, else summarise. */
  function AfterTools(response: Option<string>): (next: string)
    ensures next == "generate-mitigation-plan" <==> ReactStructured.HasResponse(response)
    ensures next == "generate-mitigation-plan" || next == "summarise"
  {
    if response.Some? && response.value != "" then "generate-mitigation-plan" else "summarise"
  }

  /** `new_incident_condition`: stop for an incident seen before, otherwise store the report. */
  function NewIncidentCondition(isAlreadyHappened: bool): (next: string)
    ensures next == EndName <==> isAlreadyHappened
    ensures next == "store-incident-report" <==> !isAlreadyHappened
  {
    if isAlreadyHappened then EndName else "store-incident-report"
  }

  datatype Node = Start | SreAgent | Tools | SummariseNode | GenerateMitigationPlan | FormatOutput | StoreIncidentReport | End

  /**
   * The nodes a node leads to along the edges the graph declares: the
   * format-output node has both its plain edge to the end and its
   * conditional edge; no edge leaves the store node. This is the routing
   * the graph is built for, with the plan between the investigation and
   * the report.
   */
  function DeclaredSuccessors(node: Node, wantsTools: bool, response: Option<string>, isAlreadyHappened: bool): (next: set<Node>)
    ensures GenerateMitigationPlan in next <==> node == Tools && ReactStructured.HasResponse(response)
    ensures FormatOutput in next <==> node == GenerateMitigationPlan
    ensures StoreIncidentReport in next <==> node == FormatOutput && !isAlreadyHappened
    ensures node == FormatOutput ==> End in next
    ensures node == StoreIncidentReport ==> next == {}
  {
    match node
    case Start => {SreAgent}
    case SreAgent => if wantsTools then {Tools} else {End}
    case Tools => if AfterTools(response) == "generate-mitigation-plan" then {GenerateMitigationPlan} else {SummariseNode}
    case SummariseNode => {SreAgent}
    case GenerateMitigationPlan => {FormatOutput}
    case FormatOutput => {End} + (if NewIncidentCondition(isAlreadyHappened) == EndName then {End} else {StoreIncidentReport})
    case StoreIncidentReport => {}
    case End => {}
  }

  /**
   * The nodes a node leads to as the graph runs: the declared edges, and
   * besides them format-output after a run of the submission tool, whose
   * `Command` names that node as its `goto`.
   */
  function Successors(node: Node, wantsTools: bool, submitted: bool, response: Option<string>, isAlreadyHappened: bool): (next: set<Node>)
    ensures next == DeclaredSuccessors(node, wantsTools, response, isAlreadyHappened)
                    + (if node == Tools && submitted then {FormatOutput} else {})
    ensures FormatOutput in next <==> node == GenerateMitigationPlan || (node == Tools && submitted)
    ensures StoreIncidentReport in next <==> node == FormatOutput && !isAlreadyHappened
  {
    var declared := DeclaredSuccessors(node, wantsTools, response, isAlreadyHappened);
    if node == Tools && submitted then declared + {FormatOutput} else declared
  }

  /** A run along the declared edges: each node followed by one of the nodes its state leads to. */
  ghost predicate IsDeclaredRun(nodes: seq<Node>, wants: seq<bool>, responses: seq<Option<string>>, seen: seq<bool>)
  {
    && |wants| == |nodes| && |responses| == |nodes| && |seen| == |nodes|
    && (forall k :: 0 <= k < |nodes| - 1 ==>
          nodes[k + 1] in DeclaredSuccessors(nodes[k], wants[k], responses[k], seen[k]))
  }

  /** A run as the graph runs, the submission's `goto` included. */
  ghost predicate IsRun(nodes: seq<Node>, wants: seq<bool>, submitted: seq<bool>, responses: seq<Option<string>>, seen: seq<bool>)
  {
    && |wants| == |nodes| && |submitted| == |nodes| && |responses| == |nodes| && |seen| == |nodes|
    && (forall k :: 0 <= k < |nodes| - 1 ==>
          nodes[k + 1] in Successors(nodes[k], wants[k], submitted[k], responses[k], seen[k]))
  }

  /**
   * Along the declared edges a report is stored only for a new incident,
   * right after it was formatted from a plan that followed a tool run that
   * left a response.
   */
  lemma StoredOnlyNew(nodes: seq<Node>, wants: seq<bool>, responses: seq<Option<string>>, seen: seq<bool>, k: nat)
    requires IsDeclaredRun(nodes, wants, responses, seen) && 3 <= k < |nodes| && nodes[k] == StoreIncidentReport
    ensures nodes[k - 1] == FormatOutput && !seen[k - 1]
    ensures nodes[k - 2] == GenerateMitigationPlan
    ensures nodes[k - 3] == Tools && ReactStructured.HasResponse(responses[k - 3])
  {
    assert nodes[k] in DeclaredSuccessors(nodes[k - 1], wants[k - 1], responses[k - 1], seen[k - 1]);
    assert nodes[k - 1] in DeclaredSuccessors(nodes[k - 2], wants[k - 2], responses[k - 2], seen[k - 2]);
    assert nodes[k - 2] in DeclaredSuccessors(nodes[k - 3], wants[k - 3], responses[k - 3], seen[k - 3]);
  }

  /**
   * Along the successors as the graph runs, a store follows format-output
   * for a new incident, reached either from the plan or straight after the
   * submission tool; on the second path format-output fails before any
   * store (see FormatBeforePlan).
   */
  lemma StoredAfterFormat(nodes: seq<Node>, wants: seq<bool>, submitted: seq<bool>, responses: seq<Option<string>>,
                          seen: seq<bool>, k: nat)
    requires IsRun(nodes, wants, submitted, responses, seen) && 2 <= k < |nodes| && nodes[k] == StoreIncidentReport
    ensures nodes[k - 1] == FormatOutput && !seen[k - 1]
    ensures nodes[k - 2] == GenerateMitigationPlan || (nodes[k - 2] == Tools && submitted[k - 2])
  {
    assert nodes[k] in Successors(nodes[k - 1], wants[k - 1], submitted[k - 1], responses[k - 1], seen[k - 1]);
    assert nodes[k - 1] in Successors(nodes[k - 2], wants[k - 2], submitted[k - 2], responses[k - 2], seen[k - 2]);
  }

  /**
   * The submission's `goto` reaches format-output with no plan node before
   * it, so the plan fields are unset when format-output reads them and it
   * fails with a KeyError; the run ends there, before any store.
   */
  lemma FormatBeforePlan(diagnosis: string, reasoning: string, prevStepStr: string, insightsStr: string, plan: MitigationPlan)
    ensures var nodes := [Start, SreAgent, Tools, FormatOutput];
      var response := Some(ReactStructured.SubmissionText(diagnosis, reasoning));
      && IsRun(nodes, [true, true, false, false], [false, false, true, false],
               [None, None, response, response], [false, false, false, false])
      && PlanBefore(nodes[..3], plan) == None
      && FormatStep(prevStepStr, insightsStr, response.value, PlanBefore(nodes[..3], plan))
           == Err(PlanOverviewKeyError)
  {
    var nodes := [Start, SreAgent, Tools, FormatOutput];
    var response := Some(ReactStructured.SubmissionText(diagnosis, reasoning));
    var wants := [true, true, false, false];
    var submitted := [false, false, true, false];
    var responses := [None, None, response, response];
    var seen := [false, false, false, false];
    assert nodes[3] in Successors(nodes[2], wants[2], submitted[2], responses[2], seen[2]);
    assert forall k :: 0 <= k < 3 ==> nodes[k + 1] in Successors(nodes[k], wants[k], submitted[k], responses[k], seen[k]);
    assert GenerateMitigationPlan !in nodes[..3];
  }

  /**
   * Along the declared edges format-output always comes straight after the
   * plan node, so the plan fields are written and the report is built.
   */
  lemma {:induction false} FormatAfterPlan(nodes: seq<Node>, wants: seq<bool>, responses: seq<Option<string>>, seen: seq<bool>,
                                           k: nat, prevStepStr: string, insightsStr: string, response: string,
                                           plan: MitigationPlan)
    requires IsDeclaredRun(nodes, wants, responses, seen) && 1 <= k < |nodes| && nodes[k] == FormatOutput
    ensures nodes[k - 1] == GenerateMitigationPlan
    ensures PlanBefore(nodes[..k], plan) == Some(plan)
    ensures FormatStep(prevStepStr, insightsStr, response, PlanBefore(nodes[..k], plan))
            == Ok(Concat(MitigationSections(prevStepStr, insightsStr, response, plan.overview, plan.steps)))
  {
    assert nodes[k] in DeclaredSuccessors(nodes[k - 1], wants[k - 1], responses[k - 1], seen[k - 1]);
    assert nodes[..k][k - 1] == GenerateMitigationPlan;
  }

  // -----------------------------------------------------------------------
  // The numbered steps

  /** One line of the step list, numbered from 1. */
  function StepLine(number: nat, step: string): string
  {
    NatToString(number) + ". " + step
  }

  /** The step list as rendered: each step on its own line, numbered from 1 in order. */
  function NumberedSteps(steps: seq<string>): string
  {
    if steps == [] then ""
    else
      var n := |steps| - 1;
      NumberedSteps(steps[..n]) + StepLine(n + 1, steps[n]) + "\n"
  }

  /** The lines the step list is made of. */
  function StepLines(steps: seq<string>): (lines: seq<string>)
    ensures |lines| == |steps|
    ensures forall i :: 0 <= i < |steps| ==> lines[i] == StepLine(i + 1, steps[i])
  {
    seq(|steps|, i requires 0 <= i < |steps| => StepLine(i + 1, steps[i]))
  }

  /** A line without the separator, the separator, then more: the line is the first piece. */
  lemma {:induction false} SplitAfterLine(line: string, c: char, rest: string)
    requires c !in line
    ensures Split(line + [c] + rest, c) == [line] + Split(rest, c)
    decreases |line|
  {
    if line == [] {
      assert line + [c] + rest == [c] + rest;
      assert ([c] + rest)[1..] == rest;
    } else {
      var s := line + [c] + rest;
      SplitAfterLine(line[1..], c, rest);
      assert s[1..] == line[1..] + [c] + rest;
      assert [line[0]] + line[1..] == line;
    }
  }

  lemma StepLinesSnoc(steps: seq<string>)
    requires steps != []
    ensures StepLines(steps) == StepLines(steps[..|steps| - 1]) + [StepLine(|steps|, steps[|steps| - 1])]
  {
    var n := |steps| - 1;
    var a, b := StepLines(steps), StepLines(steps[..n]) + [StepLine(n + 1, steps[n])];
    forall i | 0 <= i < |a|
      ensures a[i] == b[i]
    {
      if i < n {
        assert steps[..n][i] == steps[i];
      }
    }
  }

  lemma NumberedStep(head: string, message: string, steps: seq<string>, i: nat, line: string)
    requires i < |steps| && line == NatToString(i + 1) + ". " + steps[i] + "\n"
    requires message == head + NumberedSteps(steps[..i])
    ensures message + line == head + NumberedSteps(steps[..i + 1])
  {
    assert steps[..i + 1][..i] == steps[..i];
    assert NumberedSteps(steps[..i + 1]) == NumberedSteps(steps[..i]) + line;
  }

  /** Splitting text that ends with one more line, given how the text before it splits. */
  lemma SplitStep(before: string, line: string, more: string, linesBefore: seq<string>)
    requires '\n' !in line
    requires Split(before + (line + "\n" + more), '\n') == linesBefore + Split(line + "\n" + more, '\n')
    ensures Split(before + line + "\n" + more, '\n') == linesBefore + [line] + Split(more, '\n')
  {
    assert before + line + "\n" + more == before + (line + "\n" + more);
    assert line + "\n" + more == line + ['\n'] + more;
    SplitAfterLine(line, '\n', more);
  }

  lemma {:induction false} NumberedThenMore(steps: seq<string>, more: string)
    requires forall i :: 0 <= i < |steps| ==> '\n' !in steps[i]
    ensures Split(NumberedSteps(steps) + more, '\n') == StepLines(steps) + Split(more, '\n')
  {
    if steps != [] {
      var n := |steps| - 1;
      var line := StepLine(n + 1, steps[n]);
      ReactStructured.DigitsHaveNoLineBreak(n + 1);
      assert '\n' !in line;
      NumberedThenMore(steps[..n], line + "\n" + more);
      SplitStep(NumberedSteps(steps[..n]), line, more, StepLines(steps[..n]));
      StepLinesSnoc(steps);
    } else {
      assert NumberedSteps(steps) + more == more;
    }
  }

  /**
   * Split at its line breaks, the step list is the numbered steps in order,
   * "1. " first, followed by the empty piece after the last line break.
   */
  lemma NumberedLines(steps: seq<string>)
    requires forall i :: 0 <= i < |steps| ==> '\n' !in steps[i]
    ensures Split(NumberedSteps(steps), '\n') == StepLines(steps) + [""]
    ensures forall i :: 0 <= i < |steps| ==> Split(NumberedSteps(steps), '\n')[i] == NatToString(i + 1) + ". " + steps[i]
  {
    var text := NumberedSteps(steps);
    assert Split(text, '\n') == StepLines(steps) + [""] by {
      NumberedThenMore(steps, "");
      assert text + "" == text;
    }
    forall i | 0 <= i < |steps|
      ensures Split(text, '\n')[i] == NatToString(i + 1) + ". " + steps[i]
    {
      assert (StepLines(steps) + [""])[i] == StepLines(steps)[i];
    }
  }

  // -----------------------------------------------------------------------
  // The report

  const MitigationHeading: string := "## \U{1F6E0}\U{FE0F} Mitigation Plan Strategy\n"
  const DetailedStepsHeading: string := "## \U{1F4CB} Detailed Mitigation Steps\n"

  /** The report: the common sections, the plan's overview, then its numbered steps. */
  function MitigationSections(prevStepStr: string, insightsStr: string, response: string, overview: string, steps: seq<string>): (parts: seq<string>)
    ensures |parts| == 6
  {
    ReactStructured.CommonSections(prevStepStr, insightsStr, response)
      + [MitigationHeading + Strip(overview) + "\n\n", DetailedStepsHeading + NumberedSteps(steps)]
  }

  /** What the plan node writes for the report: the overview and the steps. */
  datatype MitigationPlan = MitigationPlan(overview: string, steps: seq<string>)

  /** The plan in the state after the given nodes ran: only the plan node writes it. */
  function PlanBefore(nodes: seq<Node>, plan: MitigationPlan): (r: Option<MitigationPlan>)
    ensures r.Some? <==> GenerateMitigationPlan in nodes
    ensures r.Some? ==> r.value == plan
  {
    if GenerateMitigationPlan in nodes then Some(plan) else None
  }

  const PlanOverviewKeyError: string := "KeyError: 'mitigation_plan_overview'"

  /**
   * `format_response` on a state that may lack the plan: reading
   * `state['mitigation_plan_overview']` without a plan raises a KeyError;
   * with one, the report is the concatenated sections.
   */
  function FormatStep(prevStepStr: string, insightsStr: string, response: string, plan: Option<MitigationPlan>): (r: Result<string>)
    ensures r.Err? <==> plan.None?
    ensures r.Err? ==> r.error == PlanOverviewKeyError
    ensures r.Ok? ==> IsPrefix(ReactStructured.Title, r.value)
    ensures r.Ok? ==>
              r.value == Concat(MitigationSections(prevStepStr, insightsStr, response, plan.value.overview, plan.value.steps))
  {
    match plan
    case None => Err(PlanOverviewKeyError)
    case Some(p) =>
      var parts := MitigationSections(prevStepStr, insightsStr, response, p.overview, p.steps);
      assert Concat(parts) == ReactStructured.Title + Concat(parts[1..]);
      assert Concat(parts)[..|ReactStructured.Title|] == ReactStructured.Title;
      Ok(Concat(parts))
  }

  /** The sections come in the order steps, insights, final report, strategy, detailed steps. */
  lemma MitigationReportOrder(prevStepStr: string, insightsStr: string, response: string, overview: string, steps: seq<string>)
    ensures var parts := MitigationSections(prevStepStr, insightsStr, response, overview, steps);
      && parts[0] == ReactStructured.Title
      && IsPrefix(ReactStructured.StepsHeading, parts[1])
      && IsPrefix(ReactStructured.InsightsHeading, parts[2])
      && IsPrefix(ReactStructured.ReportHeading + "> ", parts[3])
      && IsPrefix(MitigationHeading, parts[4])
      && parts[5] == DetailedStepsHeading + NumberedSteps(steps)
  {
    PrefixOfAppend(ReactStructured.StepsHeading, Strip(prevStepStr), "\n\n");
    PrefixOfAppend(ReactStructured.InsightsHeading, Strip(insightsStr), "\n\n");
    PrefixOfAppend(ReactStructured.ReportHeading + "> ", Strip(response), "\n\n");
    PrefixOfAppend(MitigationHeading, Strip(overview), "\n\n");
  }

  /** `format_response`: the report built section by section, then one numbered line per step. */
  method FormatResponse(prevSteps: seq<string>, insights: seq<string>, response: string, overview: string, steps: seq<string>)
    returns (message: string)
    ensures message == Concat(MitigationSections(PrevStepsStr(prevSteps), InsightsStr(insights), response, overview, steps))
  {
    var insightsStr := InsightsStr(insights);
    var prevStepStr := PrevStepsStr(prevSteps);
    var stepsBody := Strip(prevStepStr) + "\n\n";
    var insightsBody := Strip(insightsStr) + "\n\n";
    var reportBody := "> " + Strip(response) + "\n\n";
    var overviewBody := Strip(overview) + "\n\n";
    message := ReactStructured.Title;
    message := message + ReactStructured.StepsHeading;
    message := message + stepsBody;
    message := message + ReactStructured.InsightsHeading;
    message := message + insightsBody;
    message := message + ReactStructured.ReportHeading;
    message := message + reportBody;
    message := message + MitigationHeading;
    message := message + overviewBody;
    message := message + DetailedStepsHeading;
    ghost var head := message;
    for i := 0 to |steps|
      invariant message == head + NumberedSteps(steps[..i])
    {
      var line := NatToString(i + 1) + ". " + steps[i] + "\n";
      NumberedStep(head, message, steps, i, line);
      message := message + line;
    }
    assert steps[..|steps|] == steps;
    Assembled(ReactStructured.Title, ReactStructured.StepsHeading, stepsBody, ReactStructured.InsightsHeading, insightsBody,
              ReactStructured.ReportHeading, reportBody, MitigationHeading, overviewBody, DetailedStepsHeading, NumberedSteps(steps));
    SectionsSplit(prevStepStr, insightsStr, response, overview, steps);
  }

  /** Appending heading and body in turn gives the concatenation of the sections. */
  lemma Assembled(title: string, h1: string, b1: string, h2: string, b2: string, h3: string, b3: string,
                  h4: string, b4: string, h5: string, b5: string)
    ensures title + h1 + b1 + h2 + b2 + h3 + b3 + h4 + b4 + h5 + b5
            == Concat([title, h1 + b1, h2 + b2, h3 + b3, h4 + b4, h5 + b5])
  {
    var parts := [title, h1 + b1, h2 + b2, h3 + b3, h4 + b4, h5 + b5];
    ConcatSplit(parts[..4], parts[4..]);
    assert parts == parts[..4] + parts[4..];
    ConcatFour(parts[0], parts[1], parts[2], parts[3]);
    assert parts[..4] == [parts[0], parts[1], parts[2], parts[3]];
    ConcatTwo(parts[4], parts[5]);
    assert parts[4..] == [parts[4], parts[5]];
  }

  /** Each section is its heading followed by its body. */
  lemma SectionsSplit(prevStepStr: string, insightsStr: string, response: string, overview: string, steps: seq<string>)
    ensures MitigationSections(prevStepStr, insightsStr, response, overview, steps) ==
      [ ReactStructured.Title,
        ReactStructured.StepsHeading + (Strip(prevStepStr) + "\n\n"),
        ReactStructured.InsightsHeading + (Strip(insightsStr) + "\n\n"),
        ReactStructured.ReportHeading + ("> " + Strip(response) + "\n\n"),
        MitigationHeading + (Strip(overview) + "\n\n"),
        DetailedStepsHeading + NumberedSteps(steps) ]
  {
    var parts := MitigationSections(prevStepStr, insightsStr, response, overview, steps);
    assert parts[1] == ReactStructured.StepsHeading + (Strip(prevStepStr) + "\n\n");
    assert parts[2] == ReactStructured.InsightsHeading + (Strip(insightsStr) + "\n\n");
    assert parts[3] == ReactStructured.ReportHeading + ("> " + Strip(response) + "\n\n");
    assert parts[4] == MitigationHeading + (Strip(overview) + "\n\n");
  }
}
