// Reducing Jaeger traces to what the agents read: the root span's duration,
// whether any span is tagged as an error and what its logs say, and the
// services the trace passes through in start-time order. The Jaeger HTTP
// query and the cluster's service list are inputs.

module Jaeger {
  import opened Values
  import opened Sorting

  /** A span tag; a missing `key` or `value` is `Null`. */
  datatype Tag = Tag(key: Value, value: Value)

  /** One `{key, value}` entry of a span log's `fields`. */
  datatype Field = Field(key: string, value: string)

  datatype Log = Log(fields: seq<Field>)

  /** A span; missing `references`, `tags` or `logs` are empty lists. */
  datatype Span = Span(
    references: seq<Value>,
    tags: seq<Tag>,
    logs: seq<Log>,
    startTime: int,
    processID: string,
    duration: int)

  /** A trace as the query API returns it; `processes` maps a process id to its service name. */
  datatype Trace = Trace(traceID: string, spans: seq<Span>, processes: map<string, string>)

  /**
   * The summary `process_trace` returns. `rootDuration` is the root span's
   * duration in microseconds; `errorMessage` is present exactly when the
   * trace has an error.
   */
  datatype ProcessedTrace = ProcessedTrace(
    traceID: string,
    rootDuration: int,
    hasError: bool,
    sequence: string,
    errorMessage: Option<string>)

  // -----------------------------------------------------------------------
  // The root span

  /** A span without references (missing or empty) is a root. */
  predicate IsRoot(s: Span)
  {
    s.references == []
  }

  /** The index of the first root span, if any. */
  function RootIndex(spans: seq<Span>): (r: Option<nat>)
    ensures r.None? <==> forall k :: 0 <= k < |spans| ==> !IsRoot(spans[k])
    ensures r.Some? ==> r.value < |spans| && IsRoot(spans[r.value]) && forall k :: 0 <= k < r.value ==> !IsRoot(spans[k])
  {
    if spans == [] then None
    else if IsRoot(spans[0]) then Some(0)
    else
      var rest := RootIndex(spans[1..]);
      assert forall k :: 1 <= k < |spans| ==> spans[1..][k - 1] == spans[k];
      if rest.None? then None else Some(rest.value + 1)
  }

  // -----------------------------------------------------------------------
  // Errors

  /** The tag that marks a span as failed: key "error" and the boolean `True` as value. */
  predicate ErrorTag(t: Tag)
  {
    t.key == Str("error") && t.value == Bool(true)
  }

  predicate IsErrorSpan(s: Span)
  {
    exists u :: 0 <= u < |s.tags| && ErrorTag(s.tags[u])
  }

  predicate HasError(spans: seq<Span>)
  {
    exists k :: 0 <= k < |spans| && IsErrorSpan(spans[k])
  }

  /** The dict built from a log's fields; a later field overrides an earlier one with the same key. */
  function FieldMap(fields: seq<Field>): map<string, string>
  {
    if fields == [] then map[]
    else
      var n := |fields| - 1;
      FieldMap(fields[..n])[fields[n].key := fields[n].value]
  }

  /** The first line of a stack trace. */
  function FirstLine(stack: string): (line: string)
    ensures '\n' !in line
    ensures IsPrefix(line, stack)
  {
    SplitPiecesFree(stack, '\n');
    JoinSplit(stack, '\n');
    var pieces := Split(stack, '\n');
    JoinAsPrefix(pieces);
    pieces[0]
  }

  lemma {:induction false} JoinAsPrefix(pieces: seq<string>)
    requires |pieces| >= 1
    ensures IsPrefix(pieces[0], Join("\n", pieces))
  {
    if |pieces| > 1 {
      JoinAppend("\n", pieces[..|pieces| - 1], pieces[|pieces| - 1]);
      JoinAsPrefix(pieces[..|pieces| - 1]);
      assert pieces[..|pieces| - 1] + [pieces[|pieces| - 1]] == pieces;
    }
  }

  /** The details one log of an error span contributes: its message, then the first line of its stack, when its event is "error". */
  function LogDetails(log: Log): seq<string>
  {
    var f := FieldMap(log.fields);
    if "event" in f && f["event"] == "error" then
      (if "message" in f then [f["message"]] else []) + (if "stack" in f then [FirstLine(f["stack"])] else [])
    else []
  }

  function LogsDetails(logs: seq<Log>): seq<string>
  {
    if logs == [] then [] else LogsDetails(logs[..|logs| - 1]) + LogDetails(logs[|logs| - 1])
  }

  /** Only an error span's logs are searched. */
  function SpanDetails(s: Span): seq<string>
  {
    if IsErrorSpan(s) then LogsDetails(s.logs) else []
  }

  function ErrorDetails(spans: seq<Span>): seq<string>
  {
    if spans == [] then [] else ErrorDetails(spans[..|spans| - 1]) + SpanDetails(spans[|spans| - 1])
  }

  /** The error message: the details joined by "; ", or "N/A" when there are none. */
  function ErrorMessage(details: seq<string>): string
  {
    if details == [] then "N/A" else Join("; ", details)
  }

  // -----------------------------------------------------------------------
  // The service sequence

  predicate StartLe(a: Span, b: Span)
  {
    a.startTime <= b.startTime
  }

  lemma StartLeIsPreorder()
    ensures TotalPreorder(StartLe)
  {
  }

  /** The service of a span when its process is known and the name is non-empty. */
  function ServiceOf(serviceMap: map<string, string>, s: Span): Option<string>
  {
    if s.processID in serviceMap && serviceMap[s.processID] != "" then Some(serviceMap[s.processID]) else None
  }

  /** The known, non-empty service names of `spans`, in order. */
  function Services(serviceMap: map<string, string>, spans: seq<Span>): (r: seq<string>)
    ensures forall i :: 0 <= i < |r| ==> r[i] != ""
  {
    if spans == [] then []
    else
      var n := |spans| - 1;
      var s := ServiceOf(serviceMap, spans[n]);
      Services(serviceMap, spans[..n]) + (if s.Some? then [s.value] else [])
  }

  /** A run of equal adjacent names collapsed to one. */
  function Collapse(names: seq<string>): (r: seq<string>)
    ensures |r| <= |names|
    ensures names != [] ==> r != [] && r[|r| - 1] == names[|names| - 1]
  {
    if names == [] then []
    else
      var n := |names| - 1;
      var c := Collapse(names[..n]);
      if c != [] && c[|c| - 1] == names[n] then c else c + [names[n]]
  }

  /** The service sequence: the services of the spans in start-time order, repeats collapsed. */
  function SequenceOf(trace: Trace): seq<string>
  {
    Collapse(Services(trace.processes, SortBy(trace.spans, StartLe)))
  }

  /** `process_trace` as a value. */
  function ProcessedOf(trace: Trace): Option<ProcessedTrace>
  {
    match RootIndex(trace.spans)
    case None => None
    case Some(root) =>
      var hasError := HasError(trace.spans);
      Some(ProcessedTrace(
        trace.traceID,
        trace.spans[root].duration,
        hasError,
        Join(" -> ", SequenceOf(trace)),
        if hasError then Some(ErrorMessage(ErrorDetails(trace.spans))) else None))
  }

  // -----------------------------------------------------------------------
  // The loops of `process_trace`

  /** The first loop: the first span without references. */
  method FindRoot(spans: seq<Span>) returns (root: Option<nat>)
    ensures root == RootIndex(spans)
  {
    var i := 0;
    while i < |spans|
      invariant i <= |spans|
      invariant forall k :: 0 <= k < i ==> !IsRoot(spans[k])
    {
      if spans[i].references == [] {
        return Some(i);
      }
      i := i + 1;
    }
    return None;
  }

  /** Whether a span carries the error tag, stopping at the first one. */
  method ScanTags(span: Span) returns (isErrorSpan: bool)
    ensures isErrorSpan == IsErrorSpan(span)
  {
    isErrorSpan := false;
    for t := 0 to |span.tags|
      invariant forall u :: 0 <= u < t ==> !ErrorTag(span.tags[u])
    {
      if span.tags[t].key == Str("error") && span.tags[t].value == Bool(true) {
        return true;
      }
    }
  }

  lemma LogsStep(logs: seq<Log>, j: nat, details: seq<string>, start: seq<string>, r: seq<string>)
    requires j < |logs|
    requires start == details + LogsDetails(logs[..j]) && r == start + LogDetails(logs[j])
    ensures r == details + LogsDetails(logs[..j + 1])
  {
    assert logs[..j + 1][..j] == logs[..j];
    assert LogsDetails(logs[..j + 1]) == LogsDetails(logs[..j]) + LogDetails(logs[j]);
    AppendAssoc(details, LogsDetails(logs[..j]), LogDetails(logs[j]));
  }

  lemma AppendAssoc(a: seq<string>, b: seq<string>, c: seq<string>)
    ensures a + b + c == a + (b + c)
  {
  }

  lemma OtherLogStep(log: Log, f: map<string, string>)
    requires f == FieldMap(log.fields) && !("event" in f && f["event"] == "error")
    ensures LogDetails(log) == []
  {
  }

  lemma ErrorLogStep(log: Log, f: map<string, string>, start: seq<string>, mid: seq<string>, r: seq<string>)
    requires f == FieldMap(log.fields) && "event" in f && f["event"] == "error"
    requires mid == start + (if "message" in f then [f["message"]] else [])
    requires r == mid + (if "stack" in f then [FirstLine(f["stack"])] else [])
    ensures r == start + LogDetails(log)
  {
  }

  /** The details of an error span's logs, appended to `details`. */
  method ScanLogs(logs: seq<Log>, details: seq<string>) returns (r: seq<string>)
    ensures r == details + LogsDetails(logs)
  {
    r := details;
    for j := 0 to |logs|
      invariant r == details + LogsDetails(logs[..j])
    {
      ghost var start := r;
      var logFields := FieldMap(logs[j].fields);
      if "event" in logFields && logFields["event"] == "error" {
        if "message" in logFields {
          r := r + [logFields["message"]];
        }
        ghost var mid := r;
        if "stack" in logFields {
          r := r + [FirstLine(logFields["stack"])];
        }
        ErrorLogStep(logs[j], logFields, start, mid, r);
      } else {
        OtherLogStep(logs[j], logFields);
      }
      LogsStep(logs, j, details, start, r);
    }
    assert logs[..|logs|] == logs;
  }

  /** The second loop: the error flag and the details of every error span. */
  method ScanErrors(spans: seq<Span>) returns (hasError: bool, errorDetails: seq<string>)
    ensures hasError == HasError(spans)
    ensures errorDetails == ErrorDetails(spans)
  {
    hasError := false;
    errorDetails := [];
    for k := 0 to |spans|
      invariant hasError == HasError(spans[..k])
      invariant errorDetails == ErrorDetails(spans[..k])
    {
      ErrorsStep(spans, k);
      var isErrorSpan := ScanTags(spans[k]);
      if isErrorSpan {
        hasError := true;
        errorDetails := ScanLogs(spans[k].logs, errorDetails);
      }
    }
    assert spans[..|spans|] == spans;
  }

  /** One more span: an error if it or an earlier one is, and its details after the earlier ones. */
  lemma ErrorsStep(spans: seq<Span>, k: nat)
    requires k < |spans|
    ensures HasError(spans[..k + 1]) <==> HasError(spans[..k]) || IsErrorSpan(spans[k])
    ensures ErrorDetails(spans[..k + 1]) == ErrorDetails(spans[..k]) + SpanDetails(spans[k])
  {
    var prefix := spans[..k + 1];
    assert prefix[..k] == spans[..k];
    if IsErrorSpan(spans[k]) {
      assert prefix[k] == spans[k];
    }
    if HasError(prefix) && !IsErrorSpan(spans[k]) {
      var j :| 0 <= j < |prefix| && IsErrorSpan(prefix[j]);
      assert spans[..k][j] == prefix[j];
    }
    if HasError(spans[..k]) {
      var j :| 0 <= j < k && IsErrorSpan(spans[..k][j]);
      assert prefix[j] == spans[..k][j];
    }
  }

  lemma ServicesStep(serviceMap: map<string, string>, spans: seq<Span>, i: nat)
    requires i < |spans|
    ensures var s := ServiceOf(serviceMap, spans[i]);
      Services(serviceMap, spans[..i + 1]) == Services(serviceMap, spans[..i]) + (if s.Some? then [s.value] else [])
  {
    assert spans[..i + 1][..i] == spans[..i];
  }

  lemma CollapseStep(names: seq<string>, s: Option<string>)
    ensures var c := Collapse(names);
      Collapse(names + (if s.Some? then [s.value] else []))
        == if s.None? || (c != [] && c[|c| - 1] == s.value) then c else c + [s.value]
  {
    if s.Some? {
      assert (names + [s.value])[..|names|] == names;
    } else {
      assert names + [] == names;
    }
  }

  lemma SequenceStep(serviceMap: map<string, string>, spans: seq<Span>, i: nat)
    requires i < |spans|
    ensures var c, s := Collapse(Services(serviceMap, spans[..i])), ServiceOf(serviceMap, spans[i]);
      Collapse(Services(serviceMap, spans[..i + 1]))
        == if s.None? || (c != [] && c[|c| - 1] == s.value) then c else c + [s.value]
  {
    ServicesStep(serviceMap, spans, i);
    CollapseStep(Services(serviceMap, spans[..i]), ServiceOf(serviceMap, spans[i]));
  }

  /** One pass of the third loop, in the loop's own variables. */
  lemma LoopStep(serviceMap: map<string, string>, spans: seq<Span>, i: nat,
                 serviceName: Option<string>, lastService: Option<string>, c: seq<string>)
    requires i < |spans|
    requires c == Collapse(Services(serviceMap, spans[..i]))
    requires lastService.None? <==> c == []
    requires lastService.Some? ==> lastService.value == c[|c| - 1]
    requires serviceName == if spans[i].processID in serviceMap then Some(serviceMap[spans[i].processID]) else None
    ensures Collapse(Services(serviceMap, spans[..i + 1]))
              == if serviceName.Some? && serviceName.value != "" && serviceName != lastService then c + [serviceName.value] else c
  {
    SequenceStep(serviceMap, spans, i);
  }

  /** The third loop: the services in start-time order, skipping unknown and repeated ones. */
  method ServiceSequence(serviceMap: map<string, string>, sortedSpans: seq<Span>) returns (serviceSequence: seq<string>)
    ensures serviceSequence == Collapse(Services(serviceMap, sortedSpans))
  {
    serviceSequence := [];
    var lastService: Option<string> := None;
    for i := 0 to |sortedSpans|
      invariant serviceSequence == Collapse(Services(serviceMap, sortedSpans[..i]))
      invariant lastService.None? <==> serviceSequence == []
      invariant lastService.Some? ==> lastService.value == serviceSequence[|serviceSequence| - 1]
    {
      var serviceName := if sortedSpans[i].processID in serviceMap then Some(serviceMap[sortedSpans[i].processID]) else None;
      LoopStep(serviceMap, sortedSpans, i, serviceName, lastService, serviceSequence);
      if serviceName.Some? && serviceName.value != "" && serviceName != lastService {
        serviceSequence := serviceSequence + [serviceName.value];
        lastService := serviceName;
      }
    }
    assert sortedSpans[..|sortedSpans|] == sortedSpans;
  }

  /**
   * `process_trace`: no summary when every span has references; otherwise
   * the trace id, the root span's duration, the error flag, the service
   * sequence joined by " -> ", and the error message when there is an error.
   */
  method ProcessTrace(trace: Trace) returns (r: Option<ProcessedTrace>)
    ensures r.None? <==> forall k :: 0 <= k < |trace.spans| ==> !IsRoot(trace.spans[k])
    ensures r == ProcessedOf(trace)
  {
    var root := FindRoot(trace.spans);
    if root.None? {
      return None;
    }
    var rootSpan := trace.spans[root.value];
    var latency := rootSpan.duration;
    var hasError, errorDetails := ScanErrors(trace.spans);
    var errorMessage := "N/A";
    if errorDetails != [] {
      errorMessage := Join("; ", errorDetails);
    }
    var sortedSpans := SortBy(trace.spans, StartLe);
    var serviceSequence := ServiceSequence(trace.processes, sortedSpans);
    r := Some(ProcessedTrace(trace.traceID, latency, hasError, Join(" -> ", serviceSequence),
                             if hasError then Some(errorMessage) else None));
  }

  // -----------------------------------------------------------------------
  // Properties of a processed trace

  /** Without an error span there are no details, so a details list is only ever read on an error. */
  lemma {:induction false} NoErrorNoDetails(spans: seq<Span>)
    requires !HasError(spans)
    ensures ErrorDetails(spans) == []
  {
    if spans != [] {
      var n := |spans| - 1;
      assert !IsErrorSpan(spans[n]);
      forall j | 0 <= j < n
        ensures !IsErrorSpan(spans[..n][j])
      {
        assert spans[..n][j] == spans[j];
      }
      NoErrorNoDetails(spans[..n]);
    }
  }

  /**
   * A summary carries an error message exactly when the trace has a span
   * tagged as an error; the message joins the details by "; " when there
   * are any (and then the trace has an error), and is "N/A" otherwise.
   */
  lemma ErrorMessageShape(trace: Trace)
    requires ProcessedOf(trace).Some?
    ensures var p := ProcessedOf(trace).value;
      && (p.errorMessage.Some? <==> p.hasError)
      && (p.hasError <==> exists k, u :: 0 <= k < |trace.spans| && 0 <= u < |trace.spans[k].tags| && ErrorTag(trace.spans[k].tags[u]))
      && (ErrorDetails(trace.spans) != [] ==> p.errorMessage == Some(Join("; ", ErrorDetails(trace.spans))))
      && (p.hasError && ErrorDetails(trace.spans) == [] ==> p.errorMessage == Some("N/A"))
  {
    if !HasError(trace.spans) {
      NoErrorNoDetails(trace.spans);
    }
  }

  /** No two neighbours are equal. */
  predicate NoRepeats(s: seq<string>)
  {
    forall i :: 0 <= i < |s| - 1 ==> s[i] != s[i + 1]
  }

  /** Collapsing leaves no two equal neighbours. */
  lemma {:induction false} CollapseNoRepeats(names: seq<string>)
    ensures NoRepeats(Collapse(names))
  {
    if names != [] {
      var n := |names| - 1;
      CollapseNoRepeats(names[..n]);
      var c := Collapse(names[..n]);
      var r := Collapse(names);
      if !(c != [] && c[|c| - 1] == names[n]) {
        assert r == c + [names[n]];
        forall i | 0 <= i < |r| - 1
          ensures r[i] != r[i + 1]
        {
          if i < |c| - 1 {
            assert r[i] == c[i] && r[i + 1] == c[i + 1];
          }
        }
      }
    }
  }

  /** Collapsing keeps exactly the names it was given. */
  lemma {:induction false} CollapseSameNames(names: seq<string>, x: string)
    ensures x in Collapse(names) <==> x in names
  {
    if names != [] {
      var n := |names| - 1;
      CollapseSameNames(names[..n], x);
      assert names == names[..n] + [names[n]];
    }
  }

  /** A service appears in the sequence exactly when some span of a known, named process belongs to it. */
  lemma {:induction false} ServicesMembers(serviceMap: map<string, string>, spans: seq<Span>, x: string)
    ensures x in Services(serviceMap, spans) <==> exists k :: 0 <= k < |spans| && ServiceOf(serviceMap, spans[k]) == Some(x)
  {
    if spans != [] {
      var n := |spans| - 1;
      ServicesMembers(serviceMap, spans[..n], x);
      if exists k :: 0 <= k < n && ServiceOf(serviceMap, spans[..n][k]) == Some(x) {
        var k :| 0 <= k < n && ServiceOf(serviceMap, spans[..n][k]) == Some(x);
        assert spans[k] == spans[..n][k];
      }
      if exists k :: 0 <= k < |spans| && ServiceOf(serviceMap, spans[k]) == Some(x) {
        var k :| 0 <= k < |spans| && ServiceOf(serviceMap, spans[k]) == Some(x);
        if k < n {
          assert spans[..n][k] == spans[k];
        }
      }
    }
  }

  /** The sequence has no empty name and no two equal neighbours, and names exactly the services of the trace's spans. */
  lemma SequenceShape(trace: Trace, x: string)
    ensures var q := SequenceOf(trace);
      && (forall i :: 0 <= i < |q| ==> q[i] != "")
      && NoRepeats(q)
      && (x in q <==> exists k :: 0 <= k < |trace.spans| && ServiceOf(trace.processes, trace.spans[k]) == Some(x))
  {
    var sorted := SortBy(trace.spans, StartLe);
    var names := Services(trace.processes, sorted);
    CollapseNoRepeats(names);
    CollapseSameNames(names, x);
    forall i | 0 <= i < |SequenceOf(trace)|
      ensures SequenceOf(trace)[i] != ""
    {
      CollapseSameNames(names, SequenceOf(trace)[i]);
    }
    ServicesMembers(trace.processes, sorted, x);
    SortByPerm(trace.spans, StartLe);
    if exists k :: 0 <= k < |sorted| && ServiceOf(trace.processes, sorted[k]) == Some(x) {
      var k :| 0 <= k < |sorted| && ServiceOf(trace.processes, sorted[k]) == Some(x);
      assert sorted[k] in multiset(trace.spans);
      var j :| 0 <= j < |trace.spans| && trace.spans[j] == sorted[k];
    }
    if exists k :: 0 <= k < |trace.spans| && ServiceOf(trace.processes, trace.spans[k]) == Some(x) {
      var k :| 0 <= k < |trace.spans| && ServiceOf(trace.processes, trace.spans[k]) == Some(x);
      assert trace.spans[k] in multiset(sorted);
      var j :| 0 <= j < |sorted| && sorted[j] == trace.spans[k];
    }
  }

  // -----------------------------------------------------------------------
  // `get_processed_traces`

  /**
   * The dict `get_processed_traces` returns: only an error for an unknown
   * service; the service, an empty trace list and an error when the fetch
   * failed or found nothing; otherwise the service, the traces and their count.
   */
  datatype TraceReport =
    | UnknownService(error: string)
    | NotFetched(service: string, error: string)
    | Fetched(service: string, traces: seq<ProcessedTrace>, tracesCount: nat)

  /** The summaries kept from the results of `process_trace`: every summary, and with `onlyErrors` only those with an error, in order. */
  function Kept(results: seq<Option<ProcessedTrace>>, onlyErrors: bool): (r: seq<ProcessedTrace>)
    ensures |r| <= |results|
  {
    if results == [] then []
    else
      var n := |results| - 1;
      var p := results[n];
      Kept(results[..n], onlyErrors) + (if p.Some? && !(onlyErrors && !p.value.hasError) then [p.value] else [])
  }

  /** The result of `process_trace` for each trace, in order. */
  function Processed(traces: seq<Trace>): (r: seq<Option<ProcessedTrace>>)
    ensures |r| == |traces| && forall k :: 0 <= k < |traces| ==> r[k] == ProcessedOf(traces[k])
  {
    seq(|traces|, k requires 0 <= k < |traces| => ProcessedOf(traces[k]))
  }

  /**
   * `get_processed_traces`. `services` is the cluster's service list and
   * `fetched` what the query returned (`None` on a failed request).
   */
  method GetProcessedTraces(services: seq<string>, service: string, fetched: Option<seq<Trace>>, onlyErrors: bool)
    returns (r: TraceReport)
    ensures service !in services ==> r == UnknownService("The service " + service + " does not exist")
    ensures service in services && fetched.None? ==> r == NotFetched(service, "Failed to fetch traces from Jaeger")
    ensures service in services && fetched == Some([]) ==> r == NotFetched(service, "No traces found")
    ensures service in services && fetched.Some? && fetched.value != [] ==>
              r == Fetched(service, Kept(Processed(fetched.value), onlyErrors), |Kept(Processed(fetched.value), onlyErrors)|)
  {
    if service !in services {
      return UnknownService("The service " + service + " does not exist");
    }
    if fetched.None? {
      return NotFetched(service, "Failed to fetch traces from Jaeger");
    }
    var traces := fetched.value;
    if traces == [] {
      return NotFetched(service, "No traces found");
    }
    var kept: seq<ProcessedTrace> := [];
    ghost var results := Processed(traces);
    for i := 0 to |traces|
      invariant kept == Kept(results[..i], onlyErrors)
    {
      assert results[..i + 1][..i] == results[..i];
      var traceData := ProcessTrace(traces[i]);
      if traceData.Some? {
        if onlyErrors && !traceData.value.hasError {
          continue;
        }
        kept := kept + [traceData.value];
      }
    }
    assert results[..|traces|] == results;
    r := Fetched(service, kept, |kept|);
  }

  /** A kept summary is one of the results, and with `onlyErrors` it has an error. */
  lemma {:induction false} KeptMembers(results: seq<Option<ProcessedTrace>>, onlyErrors: bool, p: ProcessedTrace)
    ensures p in Kept(results, onlyErrors) <==> Some(p) in results && (onlyErrors ==> p.hasError)
  {
    if results != [] {
      var n := |results| - 1;
      KeptMembers(results[..n], onlyErrors, p);
      assert results == results[..n] + [results[n]];
    }
  }

  /** When every trace has a root, the unfiltered list keeps all of them, in order. */
  lemma {:induction false} KeptAllRooted(results: seq<Option<ProcessedTrace>>)
    requires forall k :: 0 <= k < |results| ==> results[k].Some?
    ensures |Kept(results, false)| == |results|
    ensures forall k :: 0 <= k < |results| ==> Kept(results, false)[k] == results[k].value
  {
    if results != [] {
      var n := |results| - 1;
      KeptAllRooted(results[..n]);
    }
  }

  /** The summaries present in `results`, in order: a reference read from the front. */
  function Present<T>(results: seq<Option<T>>): (r: seq<T>)
    ensures |r| <= |results|
  {
    if results == [] then []
    else (if results[0].Some? then [results[0].value] else []) + Present(results[1..])
  }

  lemma PresentCons<T>(x: Option<T>, t: seq<Option<T>>)
    ensures Present([x] + t) == (if x.Some? then [x.value] else []) + Present(t)
  {
    assert ([x] + t)[0] == x && ([x] + t)[1..] == t;
  }

  lemma {:induction false} PresentAppend<T>(a: seq<Option<T>>, b: seq<Option<T>>)
    ensures Present(a + b) == Present(a) + Present(b)
  {
    if a == [] {
      assert a + b == b;
    } else {
      var head := if a[0].Some? then [a[0].value] else [];
      calc {
        Present(a + b);
        { assert a + b == [a[0]] + (a[1..] + b); }
        Present([a[0]] + (a[1..] + b));
        { PresentCons(a[0], a[1..] + b); }
        head + Present(a[1..] + b);
        { PresentAppend(a[1..], b); }
        head + (Present(a[1..]) + Present(b));
        (head + Present(a[1..])) + Present(b);
        { PresentCons(a[0], a[1..]); assert a == [a[0]] + a[1..]; }
        Present(a) + Present(b);
      }
    }
  }

  /** Without the error filter, exactly the `None` results are dropped; the rest keep their order. */
  lemma {:induction false} KeptUnfiltered(results: seq<Option<ProcessedTrace>>)
    ensures Kept(results, false) == Present(results)
  {
    if results != [] {
      var n := |results| - 1;
      KeptUnfiltered(results[..n]);
      PresentAppend(results[..n], [results[n]]);
      assert results[..n] + [results[n]] == results;
    }
  }

  /**
   * The traces `get_processed_traces` returns are, in order, the summaries of
   * the fetched traces that have a root span; with `onlyErrors` only those
   * with an error.
   */
  lemma KeptTraces(traces: seq<Trace>, onlyErrors: bool, p: ProcessedTrace)
    ensures p in Kept(Processed(traces), onlyErrors) <==>
              (exists k :: 0 <= k < |traces| && ProcessedOf(traces[k]) == Some(p)) && (onlyErrors ==> p.hasError)
  {
    var results := Processed(traces);
    KeptMembers(results, onlyErrors, p);
    if Some(p) in results {
      var k :| 0 <= k < |results| && results[k] == Some(p);
    }
  }
}
