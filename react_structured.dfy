// The single-agent ReAct prototype: a loop of agent, tools and summariser
// that ends when the submission tool has written a response, then counts
// the tool calls and renders a markdown report with a statistics table.
// The model's replies are parameters.

module ReactStructured {
  import opened Values
  import opened Helpers
  import RcaAgent
  import Schemas

  // -----------------------------------------------------------------------
  // The submission tool

  const DiagnosisLabel: string := "Diagnosis:\n"
  const ReasoningLabel: string := "\n\nReasoning:\n"

  /** The response `submit_final_diagnosis` writes: both parts under their labels. */
  function SubmissionText(diagnosis: string, reasoning: string): (r: string)
    ensures IsPrefix(DiagnosisLabel + diagnosis + ReasoningLabel, r)
    ensures IsSuffix(reasoning, r)
    ensures |r| == |DiagnosisLabel| + |diagnosis| + |ReasoningLabel| + |reasoning|
  {
    var r := DiagnosisLabel + diagnosis + ReasoningLabel + reasoning;
    assert r[..|DiagnosisLabel + diagnosis + ReasoningLabel|] == DiagnosisLabel + diagnosis + ReasoningLabel;
    r
  }

  /**
   * The response determines a one-line diagnosis and the reasoning: the
   * diagnosis ends at the first line break after the label.
   */
  lemma SubmissionTextInjective(d1: string, r1: string, d2: string, r2: string)
    requires '\n' !in d1 && '\n' !in d2
    requires SubmissionText(d1, r1) == SubmissionText(d2, r2)
    ensures d1 == d2 && r1 == r2
  {
    var k := if |d1| < |d2| then |d1| else |d2|;
    BreakAt(d1, r1, k);
    BreakAt(d2, r2, k);
    SubmissionSlices(d1, r1);
    SubmissionSlices(d2, r2);
  }

  /** Where the diagnosis and the reasoning sit in the submission text. */
  lemma SubmissionSlices(d: string, r: string)
    ensures var t := SubmissionText(d, r); var n := |DiagnosisLabel|;
      && t[n..n + |d|] == d
      && t[n + |d| + |ReasoningLabel|..] == r
  {
    var t := SubmissionText(d, r);
    var n := |DiagnosisLabel|;
    assert t == DiagnosisLabel + d + ReasoningLabel + r;
    assert t[n..n + |d|] == d;
  }

  /** Within the diagnosis and just after it, the only line break is the one that ends it. */
  lemma BreakAt(d: string, r: string, k: nat)
    requires '\n' !in d && k <= |d|
    ensures SubmissionText(d, r)[|DiagnosisLabel| + k] == '\n' <==> k == |d|
  {
    var t := SubmissionText(d, r);
    if k < |d| {
      assert t[|DiagnosisLabel| + k] == d[k];
    }
  }

  // -----------------------------------------------------------------------
  // Routing

  /** `state.get("response")` is truthy: set and non-empty. */
  predicate HasResponse(response: Option<string>)
  {
    response.Some? && response.value != ""
  }

  /** `after_tools_condition`: "tool-call-stats" once a response is set, else "summarise". */
  function AfterTools(response: Option<string>): (next: string)
    ensures next == "tool-call-stats" <==> HasResponse(response)
    ensures next == "tool-call-stats" || next == "summarise"
  {
    if response.Some? && response.value != "" then "tool-call-stats" else "summarise"
  }

  /** A submission always carries its labels, so the loop leaves for the statistics after it. */
  lemma SubmissionEndsLoop(diagnosis: string, reasoning: string)
    ensures AfterTools(Some(SubmissionText(diagnosis, reasoning))) == "tool-call-stats"
  {
    assert |SubmissionText(diagnosis, reasoning)| > 0;
  }

  datatype Node = Start | SreAgent | Tools | SummariseNode | ToolCallStats | FormatOutput | End

  /**
   * The nodes a node leads to, given whether the model asked for tools,
   * whether the tool run was the submission tool and the response after
   * it. Besides its conditional edge, a tool run of the submission tool
   * also goes to format-output, because the tool's `Command` names that
   * node as its `goto`.
   */
  function Successors(node: Node, wantsTools: bool, submitted: bool, response: Option<string>): (next: set<Node>)
    ensures node == SummariseNode ==> next == {SreAgent}
    ensures node == ToolCallStats ==> next == {FormatOutput}
    ensures ToolCallStats in next <==> node == Tools && HasResponse(response)
    ensures FormatOutput in next <==> node == ToolCallStats || (node == Tools && submitted)
    ensures SreAgent in next <==> node == Start || node == SummariseNode
  {
    match node
    case Start => {SreAgent}
    case SreAgent => if wantsTools then {Tools} else {End}
    case Tools =>
      (if AfterTools(response) == "tool-call-stats" then {ToolCallStats} else {SummariseNode})
      + (if submitted then {FormatOutput} else {})
    case SummariseNode => {SreAgent}
    case ToolCallStats => {FormatOutput}
    case FormatOutput => {End}
    case End => {}
  }

  /** A run: each node followed by one of the nodes its state leads to. */
  ghost predicate IsRun(nodes: seq<Node>, wants: seq<bool>, submitted: seq<bool>, responses: seq<Option<string>>)
  {
    && |wants| == |nodes| && |submitted| == |nodes| && |responses| == |nodes|
    && (forall k :: 0 <= k < |nodes| - 1 ==>
          nodes[k + 1] in Successors(nodes[k], wants[k], submitted[k], responses[k]))
  }

  /**
   * The report is formatted either straight after the submission tool ran,
   * or two steps after a tool run that left a response, once the
   * statistics are counted.
   */
  lemma FormatAfterStats(nodes: seq<Node>, wants: seq<bool>, submitted: seq<bool>, responses: seq<Option<string>>, k: nat)
    requires IsRun(nodes, wants, submitted, responses) && 2 <= k < |nodes| && nodes[k] == FormatOutput
    ensures || (nodes[k - 1] == Tools && submitted[k - 1])
            || (nodes[k - 1] == ToolCallStats && nodes[k - 2] == Tools && HasResponse(responses[k - 2]))
  {
    assert nodes[k] in Successors(nodes[k - 1], wants[k - 1], submitted[k - 1], responses[k - 1]);
    if nodes[k - 1] != Tools {
      assert nodes[k - 1] in Successors(nodes[k - 2], wants[k - 2], submitted[k - 2], responses[k - 2]);
    }
  }

  /**
   * After the submission tool the graph forks: format-output runs at once,
   * beside the statistics node, and runs again after the statistics.
   */
  lemma SubmissionFormatsTwice(wantsTools: bool, diagnosis: string, reasoning: string)
    ensures var next := Successors(Tools, wantsTools, true, Some(SubmissionText(diagnosis, reasoning)));
      next == {ToolCallStats, FormatOutput}
    ensures Successors(ToolCallStats, wantsTools, false, Some(SubmissionText(diagnosis, reasoning))) == {FormatOutput}
  {
    SubmissionEndsLoop(diagnosis, reasoning);
  }

  // -----------------------------------------------------------------------
  // The summariser

  /**
   * `summarise`: the prompt reads exactly the last two messages (fewer when
   * there are fewer), and the reply becomes one insight and one step.
   */
  method Summarise(messages: seq<Message>, insights: seq<string>, prevSteps: seq<string>, data: Schemas.UpdateAgentData)
    returns (prompt: RcaAgent.SummaryPrompt, newInsights: seq<string>, newSteps: seq<string>)
    ensures prompt.lastMessages == RcaAgent.LastTwo(messages)
    ensures |prompt.lastMessages| == if |messages| < 2 then |messages| else 2
    ensures RcaAgent.IsSuffixOf(prompt.lastMessages, messages)
    ensures prompt.insights == InsightsStr(insights) && prompt.prevSteps == PrevStepsStr(prevSteps)
    ensures newInsights == [data.insight] && newSteps == [data.prevStep]
  {
    var lastMessages := RcaAgent.LastTwo(messages);
    prompt := RcaAgent.SummaryPrompt(PrevStepsStr(prevSteps), InsightsStr(insights), lastMessages);
    newInsights := [data.insight];
    newSteps := [data.prevStep];
  }

  // -----------------------------------------------------------------------
  // Tool statistics

  /** `count_tool_calls` here: every named call, the submission tool's included, under `tool_calls_stats`. */
  method CountToolCallStats(messages: seq<Message>) returns (stats: seq<(string, nat)>)
    ensures stats == Tally(CalledNames(messages))
    ensures forall i :: 0 <= i < |stats| ==> stats[i].1 == multiset(CalledNames(messages))[stats[i].0]
  {
    stats := CountToolCalls(messages);
  }

  /** The submission tool is counted like any other tool. */
  lemma SubmissionCounted(messages: seq<Message>)
    requires "submit_final_diagnosis" in CalledNames(messages)
    ensures CountOf(Tally(CalledNames(messages)), "submit_final_diagnosis") >= 1
  {
  }

  const ToolHeader: string := "| Tool Name | Count |"
  const RuleLine: string := "|-----------|-------|"
  const TableHead: string := ToolHeader + "\n" + RuleLine + "\n"
  const NoStats: string := "No tool calls stats"

  function Row(entry: (string, nat)): string
  {
    "| " + entry.0 + " | " + NatToString(entry.1) + " |\n"
  }

  /** The rows of the table, one per entry in order. */
  function Rows(stats: seq<(string, nat)>): string
  {
    if stats == [] then "" else Rows(stats[..|stats| - 1]) + Row(stats[|stats| - 1])
  }

  /** `get_stats_str`: a markdown table with one row per tool in dict order, or a note when there are no statistics. */
  method GetStatsStr(stats: seq<(string, nat)>) returns (r: string)
    ensures r == StatsTable(stats)
  {
    if |stats| > 0 {
      var table := TableHead;
      for i := 0 to |stats|
        invariant table == TableHead + Rows(stats[..i])
      {
        assert stats[..i + 1][..i] == stats[..i];
        table := table + "| " + stats[i].0 + " | " + NatToString(stats[i].1) + " |\n";
      }
      assert stats[..|stats|] == stats;
      return table;
    } else {
      return NoStats;
    }
  }

  /** What `get_stats_str` renders. */
  function StatsTable(stats: seq<(string, nat)>): string
  {
    if stats == [] then NoStats else TableHead + Rows(stats)
  }

  /** The number of line breaks in a text. */
  function LineBreaks(s: string): nat
  {
    if s == [] then 0 else LineBreaks(s[..|s| - 1]) + (if s[|s| - 1] == '\n' then 1 else 0)
  }

  lemma {:induction false} LineBreaksAppend(a: string, b: string)
    ensures LineBreaks(a + b) == LineBreaks(a) + LineBreaks(b)
    decreases |b|
  {
    if b == [] {
      assert a + b == a;
    } else {
      LineBreaksAppend(a, b[..|b| - 1]);
      assert (a + b)[..|a + b| - 1] == a + b[..|b| - 1];
    }
  }

  lemma {:induction false} NoLineBreaks(s: string)
    requires '\n' !in s
    ensures LineBreaks(s) == 0
  {
    if s != [] {
      assert forall i :: 0 <= i < |s| - 1 ==> s[..|s| - 1][i] == s[i];
      NoLineBreaks(s[..|s| - 1]);
    }
  }

  lemma {:induction false} DigitsHaveNoLineBreak(n: nat)
    ensures '\n' !in NatToString(n)
  {
    if n >= 10 {
      DigitsHaveNoLineBreak(n / 10);
    }
  }

  lemma RowLines(e: (string, nat))
    requires '\n' !in e.0
    ensures LineBreaks(Row(e)) == 1
  {
    var body := "| " + e.0 + " | " + NatToString(e.1) + " |";
    DigitsHaveNoLineBreak(e.1);
    NoLineBreaks(body);
    LineBreaksAppend(body, "\n");
    assert Row(e) == body + "\n";
    assert LineBreaks("\n") == 1 by {
      assert "\n"[..0] == "";
    }
  }

  lemma StrAssoc(a: string, b: string, c: string)
    ensures a + (b + c) == a + b + c
  {
  }

  lemma HeadLines()
    ensures LineBreaks(TableHead) == 2
  {
    var a := ToolHeader;
    var b := RuleLine;
    assert LineBreaks("\n") == 1 by {
      assert "\n"[..0] == "";
    }
    assert LineBreaks(a + "\n") == 1 by {
      NoLineBreaks(a);
      LineBreaksAppend(a, "\n");
    }
    assert LineBreaks(a + "\n" + b) == 1 by {
      NoLineBreaks(b);
      LineBreaksAppend(a + "\n", b);
    }
    assert LineBreaks(a + "\n" + b + "\n") == 2 by {
      LineBreaksAppend(a + "\n" + b, "\n");
    }
    assert TableHead == a + "\n" + b + "\n";
  }

  /** A table of tools whose names hold no line break has exactly one line per tool below its two header lines. */
  lemma {:induction false} TableLines(stats: seq<(string, nat)>)
    requires forall i :: 0 <= i < |stats| ==> '\n' !in stats[i].0
    ensures LineBreaks(TableHead + Rows(stats)) == 2 + |stats|
  {
    if stats == [] {
      assert TableHead + Rows(stats) == TableHead;
      HeadLines();
    } else {
      var n := |stats| - 1;
      TableLines(stats[..n]);
      var e := stats[n];
      LineBreaksAppend(TableHead + Rows(stats[..n]), Row(e));
      StrAssoc(TableHead, Rows(stats[..n]), Row(e));
      RowLines(e);
    }
  }

  // -----------------------------------------------------------------------
  // The report

  const Title: string := "# \U{1F4DD} Results of the Analysis\n\n"
  const StepsHeading: string := "## \U{1F50D} Steps Performed\n"
  const InsightsHeading: string := "## \U{1F4A1} Insights Gathered\n"
  const ReportHeading: string := "## \U{1F6A8} Final Report (Root Cause)\n"
  const StatsHeading: string := "## \U{1F4CA} Tool Calls Statistics\n"

  /**
   * The title and the three sections every report of the ReAct prototypes
   * opens with, from the rendered step and insight lists.
   */
  function CommonSections(prevStepStr: string, insightsStr: string, response: string): (parts: seq<string>)
    ensures |parts| == 4
  {
    [ Title,
      StepsHeading + Strip(prevStepStr) + "\n\n",
      InsightsHeading + Strip(insightsStr) + "\n\n",
      ReportHeading + "> " + Strip(response) + "\n\n" ]
  }

  /** This prototype's report: the common sections, then the statistics. */
  function ReportSections(prevStepStr: string, insightsStr: string, response: string, table: string): (parts: seq<string>)
    ensures |parts| == 5
  {
    CommonSections(prevStepStr, insightsStr, response) + [StatsHeading + Strip(table) + "\n\n"]
  }

  /** Each section of the report opens with its heading, in the order steps, insights, final report, statistics. */
  lemma ReportOrder(prevStepStr: string, insightsStr: string, response: string, table: string)
    ensures var parts := ReportSections(prevStepStr, insightsStr, response, table);
      && parts[0] == Title
      && IsPrefix(StepsHeading, parts[1])
      && IsPrefix(InsightsHeading, parts[2])
      && IsPrefix(ReportHeading + "> ", parts[3])
      && IsPrefix(StatsHeading, parts[4])
  {
    var parts := ReportSections(prevStepStr, insightsStr, response, table);
    assert parts[1][..|StepsHeading|] == StepsHeading;
    assert parts[2][..|InsightsHeading|] == InsightsHeading;
    assert parts[3][..|ReportHeading + "> "|] == ReportHeading + "> ";
    assert parts[4][..|StatsHeading|] == StatsHeading;
  }

  /** `format_response`: the report built section by section. */
  method FormatResponse(prevSteps: seq<string>, insights: seq<string>, response: string, stats: seq<(string, nat)>)
    returns (message: string)
    ensures message == Concat(ReportSections(PrevStepsStr(prevSteps), InsightsStr(insights), response, StatsTable(stats)))
  {
    var insightsStr := InsightsStr(insights);
    var prevStepStr := PrevStepsStr(prevSteps);
    var toolCallsTable := GetStatsStr(stats);
    var stepsBody := Strip(prevStepStr) + "\n\n";
    var insightsBody := Strip(insightsStr) + "\n\n";
    var reportBody := "> " + Strip(response) + "\n\n";
    var statsBody := Strip(toolCallsTable) + "\n\n";
    message := Title;
    message := message + StepsHeading;
    message := message + stepsBody;
    message := message + InsightsHeading;
    message := message + insightsBody;
    message := message + ReportHeading;
    message := message + reportBody;
    message := message + StatsHeading;
    message := message + statsBody;
    Assembled(Title, StepsHeading, stepsBody, InsightsHeading, insightsBody, ReportHeading, reportBody, StatsHeading, statsBody);
    SectionsSplit(prevStepStr, insightsStr, response, toolCallsTable);
  }

  /** Each section is its heading followed by its body. */
  lemma SectionsSplit(prevStepStr: string, insightsStr: string, response: string, table: string)
    ensures ReportSections(prevStepStr, insightsStr, response, table) ==
      [ Title,
        StepsHeading + (Strip(prevStepStr) + "\n\n"),
        InsightsHeading + (Strip(insightsStr) + "\n\n"),
        ReportHeading + ("> " + Strip(response) + "\n\n"),
        StatsHeading + (Strip(table) + "\n\n") ]
  {
    var parts := ReportSections(prevStepStr, insightsStr, response, table);
    assert parts[1] == StepsHeading + (Strip(prevStepStr) + "\n\n");
    assert parts[2] == InsightsHeading + (Strip(insightsStr) + "\n\n");
    assert parts[3] == ReportHeading + ("> " + Strip(response) + "\n\n");
    assert parts[4] == StatsHeading + (Strip(table) + "\n\n");
  }

  /** Appending heading and body in turn gives the concatenation of the sections. */
  lemma Assembled(title: string, h1: string, b1: string, h2: string, b2: string, h3: string, b3: string, h4: string, b4: string)
    ensures title + h1 + b1 + h2 + b2 + h3 + b3 + h4 + b4 == Concat([title, h1 + b1, h2 + b2, h3 + b3, h4 + b4])
  {
    var parts := [title, h1 + b1, h2 + b2, h3 + b3, h4 + b4];
    ConcatSplit(parts[..4], parts[4..]);
    assert parts == parts[..4] + parts[4..];
    ConcatFour(parts[0], parts[1], parts[2], parts[3]);
    assert parts[..4] == [parts[0], parts[1], parts[2], parts[3]];
    ConcatOne(parts[4]);
    assert parts[4..] == [parts[4]];
  }
}
