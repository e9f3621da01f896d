// What the single-file prototype graph does differently from the package:
// the read-only allow-list applied to the MCP tools, the budget read from
// the environment, and the rule that routes after a tool run. Its triage,
// supervisor, router and summariser are the package's, modelled in their
// own modules (the triage with its error-traces section, the supervisor
// without the history stripping).

module StudioAgent {
  import opened Values
  import opened Helpers
  import opened RcaAgent
  import ConfigEditor

  // -----------------------------------------------------------------------
  // The tool allow-list

  /** A tool the MCP servers offer; only its name matters here. */
  datatype McpTool = McpTool(name: string, server: string)

  const K8sToolsAllowed: seq<string> := ["kubectl_get", "kubectl_describe", "explain_resource", "list_api_resources", "ping"]

  const CustomToolsAllowed: seq<string> := [
    "get_metrics", "get_metrics_range", "get_pods_from_service", "get_cluster_pods_and_services",
    "get_services_used_by", "get_dependencies", "get_logs", "get_traces", "get_trace"]

  const ToolsAllowed: seq<string> := K8sToolsAllowed + CustomToolsAllowed

  /** The allowed tools among `mcpTools`, in their original order. */
  function AllowedTools(mcpTools: seq<McpTool>): (r: seq<McpTool>)
    ensures |r| <= |mcpTools|
  {
    if mcpTools == [] then []
    else
      var n := |mcpTools| - 1;
      AllowedTools(mcpTools[..n]) + (if mcpTools[n].name in ToolsAllowed then [mcpTools[n]] else [])
  }

  /** `get_MCP_tools`: the server's tools whose names are on the allow-list, in order. */
  method GetMcpTools(mcpTools: seq<McpTool>) returns (tools: seq<McpTool>)
    ensures tools == AllowedTools(mcpTools)
  {
    tools := [];
    for i := 0 to |mcpTools|
      invariant tools == AllowedTools(mcpTools[..i])
    {
      assert mcpTools[..i + 1][..i] == mcpTools[..i];
      if mcpTools[i].name in ToolsAllowed {
        tools := tools + [mcpTools[i]];
      }
    }
    assert mcpTools[..|mcpTools|] == mcpTools;
  }

  /** The allow-list has fourteen distinct names. */
  lemma FourteenTools()
    ensures |ToolsAllowed| == 14
    ensures forall i, j :: 0 <= i < j < |ToolsAllowed| ==> ToolsAllowed[i] != ToolsAllowed[j]
  {
  }

  /** A tool is kept exactly when the server offers it and its name is allowed. */
  lemma {:induction false} AllowedToolsMembers(mcpTools: seq<McpTool>, t: McpTool)
    ensures t in AllowedTools(mcpTools) <==> t in mcpTools && t.name in ToolsAllowed
  {
    if mcpTools != [] {
      var n := |mcpTools| - 1;
      AllowedToolsMembers(mcpTools[..n], t);
      assert mcpTools == mcpTools[..n] + [mcpTools[n]];
    }
  }

  /** A server that offers only allowed tools keeps them all. */
  lemma {:induction false} AllAllowedKept(mcpTools: seq<McpTool>)
    requires forall i :: 0 <= i < |mcpTools| ==> mcpTools[i].name in ToolsAllowed
    ensures AllowedTools(mcpTools) == mcpTools
  {
    if mcpTools != [] {
      var n := |mcpTools| - 1;
      AllAllowedKept(mcpTools[..n]);
      assert mcpTools == mcpTools[..n] + [mcpTools[n]];
    }
  }

  // -----------------------------------------------------------------------
  // The budget from the environment

  /**
   * `int(os.environ.get("MAX_TOOL_CALLS", 8))`: 8 when the variable is
   * unset, its integer value otherwise; a value `int` rejects raises.
   */
  function MaxToolCallsSetting(env: Option<string>): (r: Result<int>)
    ensures env.None? ==> r == Ok(DefaultMaxToolCalls)
    ensures env.Some? ==> (r.Ok? <==> ConfigEditor.ParseInt(Strip(env.value)).Some?)
    ensures env.Some? && r.Ok? ==> r.value == ConfigEditor.ParseInt(Strip(env.value)).value
  {
    if env.None? then Ok(8)
    else
      match ConfigEditor.ParseInt(Strip(env.value))
      case None => Err("invalid literal for int() with base 10")
      case Some(v) => Ok(v)
  }

  /**
   * The budget part of the prototype's `rcaAgent`: the same count of
   * non-submission calls as the package, against the budget read from the
   * environment.
   */
  method StudioBudgetStatus(messages: seq<Message>, env: Option<string>) returns (r: Result<string>)
    ensures MaxToolCallsSetting(env).Err? <==> r.Err?
    ensures r.Ok? ==> r.value == BudgetStatus(NonSubmissionCount(messages), MaxToolCallsSetting(env).value)
  {
    var toolCallCount := CountNonSubmissionToolCalls(messages);
    var maxToolCalls := MaxToolCallsSetting(env);
    if maxToolCalls.Err? {
      return Err(maxToolCalls.error);
    }
    return Ok(BudgetStatus(toolCallCount, maxToolCalls.value));
  }

  /** With the variable unset, the prototype warns from six calls and stops the worker at eight. */
  lemma DefaultBudgetZones(messages: seq<Message>)
    ensures var n := NonSubmissionCount(messages);
      && (BudgetStatus(n, MaxToolCallsSetting(None).value) == "" <==> n < 6)
      && (IsPrefix(ExceededHead, BudgetStatus(n, MaxToolCallsSetting(None).value)) <==> n >= 8)
  {
  }

  /** A budget written with spaces around the digits is read as that number. */
  lemma PaddedBudget(n: nat)
    ensures MaxToolCallsSetting(Some(" " + NatToString(n) + "\n")) == Ok(n)
  {
    var s := " " + NatToString(n) + "\n";
    ConfigEditor.ParseIntRoundTrip(n);
    StripDigits(NatToString(n));
    assert Strip(s) == NatToString(n) by {
      StripPadded(NatToString(n));
    }
  }

  lemma StripDigits(s: string)
    requires ConfigEditor.AllDigits(s)
    ensures forall i :: 0 <= i < |s| ==> !IsSpace(s[i])
  {
  }

  lemma StripPadded(s: string)
    requires s != [] && !IsSpace(s[0]) && !IsSpace(s[|s| - 1])
    ensures Strip(" " + s + "\n") == s
  {
    var t := " " + s + "\n";
    assert t[1..] == s + "\n";
    assert StripLeft(t) == StripLeft(t[1..]);
    assert StripLeft(s + "\n") == s + "\n";
    assert (s + "\n")[..|s|] == s;
    assert StripRight(s + "\n") == StripRight(s);
    assert StripRight(s) == s;
  }

  // -----------------------------------------------------------------------
  // The rule after a tool run

  /**
   * The prototype's `after_tools_condition`: "format-output" only when the
   * first record of `rca_analyses_list` holds both a diagnosis and a
   * reasoning, "summarise" otherwise.
   */
  function StudioAfterTools(analyses: seq<map<string, Value>>): (next: string)
    ensures next == "format-output" <==> analyses != [] && "diagnosis" in analyses[0] && "reasoning" in analyses[0]
    ensures next == "format-output" || next == "summarise"
  {
    if analyses != [] then
      var analysis := analyses[0];
      if "diagnosis" in analysis && "reasoning" in analysis then "format-output" else "summarise"
    else "summarise"
  }

  /**
   * A worker starts with an empty `rca_analyses_list` and only its
   * format-output node fills it, while the submission tool writes
   * `rca_output`: so the rule sends every tool run of a fresh worker to
   * "summarise", whatever the submission wrote; only the tool's own `goto`
   * reaches the format-output node.
   */
  lemma FreshWorkerAlwaysSummarises(diagnosis: string, reasoning: string)
    ensures StudioAfterTools([]) == "summarise"
    ensures AfterTools(SubmitFinalDiagnosis(diagnosis, reasoning)) == "format-output"
  {
    SubmissionLeadsToFormat(diagnosis, reasoning);
  }
}
