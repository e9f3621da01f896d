// The log tool: the pods behind a service, found through the service's label
// selector, and a pod's log reduced to its ERROR/WARN/CRITICAL lines with a
// count header. The cluster's pod and service lists, the service selectors,
// the pod listing by selector and the log read are inputs.

module Logs {
  import opened Values

  // -----------------------------------------------------------------------
  // Keyword filtering

  const ImportantKeywords: seq<string> := ["ERROR", "WARN", "CRITICAL"]

  const NoMatchNote: string := "No important log entries found, full log entries are appended\n"

  /** A line that contains one of the important keywords. */
  predicate Important(line: string)
  {
    exists i :: 0 <= i < |ImportantKeywords| && Contains(line, ImportantKeywords[i])
  }

  /** The important lines, in order. */
  function FilterImportant(lines: seq<string>): (r: seq<string>)
    ensures |r| <= |lines|
    ensures forall i :: 0 <= i < |r| ==> Important(r[i])
  {
    if lines == [] then []
    else
      var n := |lines| - 1;
      FilterImportant(lines[..n]) + (if Important(lines[n]) then [lines[n]] else [])
  }

  /** The number of lines that contain `keyword`. */
  function CountWith(lines: seq<string>, keyword: string): nat
  {
    if lines == [] then 0
    else
      var n := |lines| - 1;
      CountWith(lines[..n], keyword) + (if Contains(lines[n], keyword) then 1 else 0)
  }

  /** The first line of the header: the number of selected lines. */
  function FoundLine(count: nat): string
  {
    "Found " + NatToString(count) + " important log entries:\n"
  }

  /** The header line for one keyword. */
  function CountLine(keyword: string, count: nat): string
  {
    keyword + ": " + NatToString(count) + " lines\n"
  }

  /** The rest of the header: the count of each keyword, then a blank line. */
  function CountLines(filtered: seq<string>): string
  {
    CountLine("ERROR", CountWith(filtered, "ERROR")) + CountLine("WARN", CountWith(filtered, "WARN"))
      + CountLine("CRITICAL", CountWith(filtered, "CRITICAL")) + "\n"
  }

  /** The header of a non-empty selection: the number of lines, then the count of each keyword. */
  function Header(filtered: seq<string>): string
  {
    FoundLine(|filtered|) + CountLines(filtered)
  }

  /**
   * `get_pod_logs`. `pods` is the namespace's pod list and `logs` the tail
   * of the pod's log as read. An unknown pod gets a fixed message; without
   * `important` the log is returned as read; otherwise the important lines
   * under their count header, or, when there are none, a note followed by
   * the whole log.
   */
  method GetPodLogs(pods: seq<string>, namespace: string, podName: string, logs: string, important: bool)
    returns (r: string)
    ensures podName !in pods ==> r == "The pod " + podName + " does not exist in the " + namespace + " namespace."
    ensures podName in pods && !important ==> r == logs
    ensures podName in pods && important && FilterImportant(Split(logs, '\n')) == [] ==> r == NoMatchNote + logs
    ensures podName in pods && important && FilterImportant(Split(logs, '\n')) != [] ==>
              var filtered := FilterImportant(Split(logs, '\n'));
              && IsPrefix(FoundLine(|filtered|), r)
              && r == Header(filtered) + Join("\n", filtered)
  {
    if podName !in pods {
      return "The pod " + podName + " does not exist in the " + namespace + " namespace.";
    }
    if important {
      var logLines := Split(logs, '\n');
      var filteredLogs := FilterImportant(logLines);
      var results := "";
      if |filteredLogs| > 0 {
        var errorCount := CountWith(filteredLogs, "ERROR");
        var warnCount := CountWith(filteredLogs, "WARN");
        var criticalCount := CountWith(filteredLogs, "CRITICAL");
        results := FoundLine(|filteredLogs|);
        results := results + CountLine("ERROR", errorCount);
        results := results + CountLine("WARN", warnCount);
        results := results + CountLine("CRITICAL", criticalCount) + "\n";
        Regroup(FoundLine(|filteredLogs|), CountLine("ERROR", errorCount), CountLine("WARN", warnCount),
                CountLine("CRITICAL", criticalCount), "\n");
        HeaderStartsReport(filteredLogs);
        results := results + Join("\n", filteredLogs);
      } else {
        results := results + NoMatchNote;
        assert results == NoMatchNote;
        JoinSplit(logs, '\n');
        results := results + Join("\n", logLines);
      }
      return results;
    } else {
      return logs;
    }
  }

  lemma HeaderStartsReport(filtered: seq<string>)
    ensures IsPrefix(FoundLine(|filtered|), Header(filtered) + Join("\n", filtered))
  {
    PrefixOfAppend(FoundLine(|filtered|), CountLines(filtered), Join("\n", filtered));
  }

  lemma Regroup(p: string, a: string, b: string, c: string, d: string)
    ensures p + a + b + c + d == p + (a + b + c + d)
  {
  }

  /** A line is selected exactly when it is a line of the log and contains a keyword. */
  lemma {:induction false} FilterMembers(lines: seq<string>, line: string)
    ensures line in FilterImportant(lines) <==> line in lines && Important(line)
  {
    if lines != [] {
      var n := |lines| - 1;
      FilterMembers(lines[..n], line);
      assert lines == lines[..n] + [lines[n]];
    }
  }

  /** No keyword is counted on more lines than were selected. */
  lemma {:induction false} CountBounded(lines: seq<string>, keyword: string)
    ensures CountWith(lines, keyword) <= |lines|
  {
    if lines != [] {
      CountBounded(lines[..|lines| - 1], keyword);
    }
  }

  /** Every selected line has a keyword, so the three counts add up to at least the number of lines. */
  lemma {:induction false} CountsCover(lines: seq<string>)
    requires forall i :: 0 <= i < |lines| ==> Important(lines[i])
    ensures CountWith(lines, "ERROR") + CountWith(lines, "WARN") + CountWith(lines, "CRITICAL") >= |lines|
  {
    if lines != [] {
      var n := |lines| - 1;
      assert forall i :: 0 <= i < n ==> lines[..n][i] == lines[i];
      CountsCover(lines[..n]);
      assert Important(lines[n]);
    }
  }

  /**
   * The header's figures: each keyword count is at most the number of
   * selected lines, and together they reach it; the selected lines hold no
   * line break.
   */
  lemma HeaderCounts(logs: string)
    ensures var filtered := FilterImportant(Split(logs, '\n'));
      && CountWith(filtered, "ERROR") <= |filtered|
      && CountWith(filtered, "WARN") <= |filtered|
      && CountWith(filtered, "CRITICAL") <= |filtered|
      && CountWith(filtered, "ERROR") + CountWith(filtered, "WARN") + CountWith(filtered, "CRITICAL") >= |filtered|
      && forall i :: 0 <= i < |filtered| ==> '\n' !in filtered[i]
  {
    var lines := Split(logs, '\n');
    var filtered := FilterImportant(lines);
    CountBounded(filtered, "ERROR");
    CountBounded(filtered, "WARN");
    CountBounded(filtered, "CRITICAL");
    CountsCover(filtered);
    SplitPiecesFree(logs, '\n');
    forall i | 0 <= i < |filtered|
      ensures '\n' !in filtered[i]
    {
      FilterMembers(lines, filtered[i]);
    }
  }

  // -----------------------------------------------------------------------
  // Pods of a service

  /** One entry of the `pods` list. */
  datatype PodInfo = PodInfo(podName: string, podStatus: string)

  /** The dict `get_pods_from_service` returns; `error` and `pods` are the optional keys. */
  datatype ServicePods = ServicePods(serviceName: string, namespace: string, error: Option<string>, pods: Option<seq<PodInfo>>)

  /** The label selector: the `k=v` pairs of the service's selector joined by ",". */
  function LabelSelector(selector: seq<(string, string)>): string
  {
    Join(",", seq(|selector|, i requires 0 <= i < |selector| => selector[i].0 + "=" + selector[i].1))
  }

  /** One more selector pair adds a comma and `k=v` to the selector of the others. */
  lemma LabelSelectorAppend(selector: seq<(string, string)>, key: string, value: string)
    ensures LabelSelector([(key, value)]) == key + "=" + value
    ensures selector != [] ==> LabelSelector(selector + [(key, value)]) == LabelSelector(selector) + "," + key + "=" + value
  {
    var pairs := seq(|selector|, i requires 0 <= i < |selector| => selector[i].0 + "=" + selector[i].1);
    var more := selector + [(key, value)];
    assert seq(|more|, i requires 0 <= i < |more| => more[i].0 + "=" + more[i].1) == pairs + [key + "=" + value];
    JoinAppend(",", pairs, key + "=" + value);
  }

  /**
   * `get_pods_from_service`. `services` is the namespace's service list,
   * `selectorOf` reads a service's selector and `listPods` lists the pods
   * matching a label selector as (name, phase).
   */
  method GetPodsFromService(services: seq<string>, namespace: string, service: string,
                            selectorOf: string -> seq<(string, string)>,
                            listPods: string -> seq<(string, string)>)
    returns (r: ServicePods)
    ensures r.serviceName == service && r.namespace == namespace
    ensures service !in services ==>
              r.error == Some("The service " + service + " does not exist in the " + namespace + " namespace.") && r.pods.None?
    ensures service in services ==> r.error.None? && r.pods.Some?
    ensures service in services ==>
              var listed := listPods(LabelSelector(selectorOf(service)));
              |r.pods.value| == |listed|
              && forall i :: 0 <= i < |listed| ==> r.pods.value[i] == PodInfo(listed[i].0, listed[i].1)
  {
    if service !in services {
      return ServicePods(service, namespace, Some("The service " + service + " does not exist in the " + namespace + " namespace."), None);
    }
    var selector := selectorOf(service);
    var labelSelector := LabelSelector(selector);
    var listed := listPods(labelSelector);
    var pods: seq<PodInfo> := [];
    for i := 0 to |listed|
      invariant |pods| == i
      invariant forall k :: 0 <= k < i ==> pods[k] == PodInfo(listed[k].0, listed[k].1)
    {
      pods := pods + [PodInfo(listed[i].0, listed[i].1)];
    }
    r := ServicePods(service, namespace, None, Some(pods));
  }
}
