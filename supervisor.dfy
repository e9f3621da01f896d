// The supervisor: the fixed report it returns when there is nothing to
// analyse, and the markdown prompt it assembles from the symptoms and the
// workers' records otherwise. The LLM's report and `json.dumps` are
// parameters.

module Supervisor {
  import opened Values
  import opened Schemas

  /** The supervisor's inputs, with missing keys already read as their defaults. */
  datatype SupervisorState = SupervisorState(
    appName: string,
    appSummary: string,
    symptoms: seq<Symptom>,
    analyses: seq<map<string, Value>>)

  /** The report returned when there are neither analyses nor symptoms. */
  const FallbackReport: FinalReport := FinalReport(
    "No analysis data available",
    [],
    "No symptoms or RCA analysis provided",
    "Investigation incomplete - insufficient data")

  const Closing: string := "\n\nBased on all the above information, provide a comprehensive root cause diagnosis."
  const Rule: string := "---\n\n"
  const SymptomsHeading: string := "# Symptoms Identified\n\n"
  const FindingsHeading: string := "# RCA Investigation Findings\n\n"

  // -----------------------------------------------------------------------
  // The prompt, section by section

  function HeaderParts(appName: string, appSummary: string): seq<string>
  {
    ["# Incident Analysis Summary\n\n", "- **Application**: " + appName + "\n", "- **Summary**: " + appSummary + "\n\n", Rule]
  }

  function SymptomParts(i: nat, s: Symptom): seq<string>
  {
    [ "## Symptom " + NatToString(i) + "\n\n",
      "**Type**: " + s.potentialSymptom + "\n\n",
      "**Resource**: `" + s.affectedResource + "` (" + ResourceTypeName(s.resourceType) + ")\n\n",
      "**Evidence**: " + s.evidence + "\n\n" ]
  }

  function SymptomBlock(i: nat, s: Symptom): string
  {
    Concat(SymptomParts(i, s))
  }

  /** The copy of a record shown in the prompt: every key but `message_history`, values unchanged. */
  function WithoutHistory(analysis: map<string, Value>): (r: map<string, Value>)
    ensures r.Keys == analysis.Keys - {"message_history"}
    ensures forall k :: k in r ==> r[k] == analysis[k]
  {
    map k | k in analysis && k != "message_history" :: analysis[k]
  }

  /** How a record is shown: without its history in the package, whole in the Studio prototype. */
  function Shown(analysis: map<string, Value>, stripHistory: bool): map<string, Value>
  {
    if stripHistory then WithoutHistory(analysis) else analysis
  }

  function InvestigationParts(i: nat, analysis: map<string, Value>, dumps: map<string, Value> -> string, stripHistory: bool): seq<string>
  {
    ["## Investigation " + NatToString(i) + "\n\n", "```json\n" + dumps(Shown(analysis, stripHistory)) + "\n```\n\n"]
  }

  function InvestigationBlock(i: nat, analysis: map<string, Value>, dumps: map<string, Value> -> string, stripHistory: bool): string
  {
    Concat(InvestigationParts(i, analysis, dumps, stripHistory))
  }

  /** The symptoms section: empty without symptoms, else a heading, one block per symptom numbered from 1, a rule. */
  function SymptomsSection(symptoms: seq<Symptom>): (r: string)
    ensures symptoms == [] ==> r == ""
    ensures symptoms != [] ==> IsPrefix(SymptomsHeading, r) && IsSuffix(Rule, r)
  {
    if symptoms == [] then ""
    else SymptomsHeading + SymptomBlocks(symptoms, |symptoms|) + Rule
  }

  /** The findings section: empty without records, else a heading, one block per record numbered from 1, a rule. */
  function FindingsSection(analyses: seq<map<string, Value>>, dumps: map<string, Value> -> string, stripHistory: bool): (r: string)
    ensures analyses == [] ==> r == ""
    ensures analyses != [] ==> IsPrefix(FindingsHeading, r) && IsSuffix(Rule, r)
  {
    if analyses == [] then ""
    else FindingsHeading + InvestigationBlocks(analyses, |analyses|, dumps, stripHistory) + Rule
  }

  /** The first `n` symptom blocks, numbered from 1. */
  function SymptomBlocks(symptoms: seq<Symptom>, n: nat): string
    requires n <= |symptoms|
  {
    if n == 0 then "" else SymptomBlocks(symptoms, n - 1) + SymptomBlock(n, symptoms[n - 1])
  }

  /** The first `n` investigation blocks, numbered from 1. */
  function InvestigationBlocks(analyses: seq<map<string, Value>>, n: nat, dumps: map<string, Value> -> string, stripHistory: bool): string
    requires n <= |analyses|
  {
    if n == 0 then "" else InvestigationBlocks(analyses, n - 1, dumps, stripHistory) + InvestigationBlock(n, analyses[n - 1], dumps, stripHistory)
  }

  /** The whole prompt: the header, the two sections, the closing request. */
  function PromptText(state: SupervisorState, dumps: map<string, Value> -> string, stripHistory: bool): string
  {
    Concat(HeaderParts(state.appName, state.appSummary)) + SymptomsSection(state.symptoms)
      + FindingsSection(state.analyses, dumps, stripHistory) + Closing
  }

  /** The prompt opens with the application header and ends with the closing request. */
  lemma PromptFrame(state: SupervisorState, dumps: map<string, Value> -> string, stripHistory: bool)
    ensures IsPrefix(Concat(HeaderParts(state.appName, state.appSummary)), PromptText(state, dumps, stripHistory))
    ensures IsSuffix(Closing, PromptText(state, dumps, stripHistory))
  {
    Framed(Concat(HeaderParts(state.appName, state.appSummary)), SymptomsSection(state.symptoms),
           FindingsSection(state.analyses, dumps, stripHistory), Closing);
  }

  lemma Framed(head: string, middle: string, rest: string, closing: string)
    ensures IsPrefix(head, head + middle + rest + closing)
    ensures IsSuffix(closing, head + middle + rest + closing)
  {
    var t := head + middle + rest + closing;
    assert t == head + (middle + rest + closing);
    assert t == (head + middle + rest) + closing;
  }

  /** The header lines: the title, the application name and summary, a rule. */
  lemma HeaderText(appName: string, appSummary: string)
    ensures Concat(HeaderParts(appName, appSummary))
         == "# Incident Analysis Summary\n\n" + ("- **Application**: " + appName + "\n" + ("- **Summary**: " + appSummary + "\n\n" + Rule))
  {
    var h := HeaderParts(appName, appSummary);
    ConcatFour(h[0], h[1], h[2], h[3]);
  }

  // -----------------------------------------------------------------------
  // The node

  lemma SymptomStep(parts: seq<string>, start: string, symptoms: seq<Symptom>, i: nat)
    requires i < |symptoms| && Concat(parts) == start + SymptomBlocks(symptoms, i)
    ensures Concat(parts + SymptomParts(i + 1, symptoms[i])) == start + SymptomBlocks(symptoms, i + 1)
  {
    AppendParts(parts, SymptomParts(i + 1, symptoms[i]), start, SymptomBlocks(symptoms, i));
  }

  lemma InvestigationStep(parts: seq<string>, start: string, analyses: seq<map<string, Value>>, i: nat,
                          dumps: map<string, Value> -> string, stripHistory: bool)
    requires i < |analyses| && Concat(parts) == start + InvestigationBlocks(analyses, i, dumps, stripHistory)
    ensures Concat(parts + InvestigationParts(i + 1, analyses[i], dumps, stripHistory))
         == start + InvestigationBlocks(analyses, i + 1, dumps, stripHistory)
  {
    AppendParts(parts, InvestigationParts(i + 1, analyses[i], dumps, stripHistory), start,
                InvestigationBlocks(analyses, i, dumps, stripHistory));
  }

  lemma CloseSection(parts: seq<string>, before: string, heading: string, blocks: string)
    requires Concat(parts) == before + heading + blocks
    ensures Concat(parts + [Rule]) == before + (heading + blocks + Rule)
  {
    ConcatSplit(parts, [Rule]);
    ConcatOne(Rule);
  }

  /** The symptoms part of `supervisor_agent`: appends the symptoms section's parts. */
  method AppendSymptoms(humanParts: seq<string>, symptoms: seq<Symptom>) returns (parts: seq<string>)
    ensures Concat(parts) == Concat(humanParts) + SymptomsSection(symptoms)
  {
    parts := humanParts;
    if |symptoms| > 0 {
      ghost var start := Concat(humanParts) + SymptomsHeading;
      ConcatOne(SymptomsHeading);
      ConcatSplit(parts, [SymptomsHeading]);
      parts := parts + [SymptomsHeading];
      for i := 0 to |symptoms|
        invariant Concat(parts) == start + SymptomBlocks(symptoms, i)
      {
        var more := SymptomParts(i + 1, symptoms[i]);
        SymptomStep(parts, start, symptoms, i);
        parts := parts + more;
      }
      CloseSection(parts, Concat(humanParts), SymptomsHeading, SymptomBlocks(symptoms, |symptoms|));
      parts := parts + [Rule];
    }
  }

  /** The findings part of `supervisor_agent`: appends the findings section's parts. */
  method AppendFindings(humanParts: seq<string>, rcaAnalyses: seq<map<string, Value>>, dumps: map<string, Value> -> string, stripHistory: bool)
    returns (parts: seq<string>)
    ensures Concat(parts) == Concat(humanParts) + FindingsSection(rcaAnalyses, dumps, stripHistory)
  {
    parts := humanParts;
    if |rcaAnalyses| > 0 {
      ghost var start := Concat(humanParts) + FindingsHeading;
      ConcatOne(FindingsHeading);
      ConcatSplit(parts, [FindingsHeading]);
      parts := parts + [FindingsHeading];
      for i := 0 to |rcaAnalyses|
        invariant Concat(parts) == start + InvestigationBlocks(rcaAnalyses, i, dumps, stripHistory)
      {
        var more := InvestigationParts(i + 1, rcaAnalyses[i], dumps, stripHistory);
        InvestigationStep(parts, start, rcaAnalyses, i, dumps, stripHistory);
        parts := parts + more;
      }
      CloseSection(parts, Concat(humanParts), FindingsHeading, InvestigationBlocks(rcaAnalyses, |rcaAnalyses|, dumps, stripHistory));
      parts := parts + [Rule];
    }
  }

  /**
   * `supervisor_agent`: with neither records nor symptoms it returns the
   * fallback report and builds no prompt; otherwise it builds the prompt
   * and returns the model's report `llmReport` in dict form.
   */
  method SupervisorAgent(state: SupervisorState, dumps: map<string, Value> -> string, stripHistory: bool, llmReport: FinalReport)
    returns (humanInput: Option<string>, finalReport: map<string, Value>)
    ensures humanInput.None? <==> state.analyses == [] && state.symptoms == []
    ensures humanInput.None? ==> finalReport == DumpReport(FallbackReport)
    ensures humanInput.Some? ==> humanInput.value == PromptText(state, dumps, stripHistory) && finalReport == DumpReport(llmReport)
  {
    var symptoms := state.symptoms;
    var rcaAnalyses := state.analyses;
    if |rcaAnalyses| == 0 && |symptoms| == 0 {
      return None, DumpReport(FallbackReport);
    }
    var humanParts := HeaderParts(state.appName, state.appSummary);
    humanParts := AppendSymptoms(humanParts, symptoms);
    humanParts := AppendFindings(humanParts, rcaAnalyses, dumps, stripHistory);
    humanInput := Some(Concat(humanParts) + Closing);
    finalReport := DumpReport(llmReport);
  }

  /** The k-th symptom block carries the number k and the k-th symptom's fields. */
  lemma SymptomNumbering(symptoms: seq<Symptom>, k: nat)
    requires 0 < k <= |symptoms|
    ensures SymptomBlocks(symptoms, k) == SymptomBlocks(symptoms, k - 1) + SymptomBlock(k, symptoms[k - 1])
    ensures IsPrefix("## Symptom " + NatToString(k) + "\n\n", SymptomBlock(k, symptoms[k - 1]))
  {
    var p := SymptomParts(k, symptoms[k - 1]);
    ConcatFour(p[0], p[1], p[2], p[3]);
    assert SymptomBlock(k, symptoms[k - 1]) == p[0] + (p[1] + (p[2] + p[3]));
  }
}
