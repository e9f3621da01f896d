// The worker's bookkeeping helpers: the bullet lists of insights and steps
// shown in prompts, and the two tool-call counters that read the chat
// history (one per-tool tally, one count that leaves out the submission tool).

module Helpers {
  import opened Values

  /** The `function` entry of a tool call; its `name` may be missing. */
  datatype FunctionEntry = FunctionEntry(name: Option<string>)

  /** One entry of an AI message's `tool_calls`; its `function` entry may be missing. */
  datatype ToolCall = ToolCall(fn: Option<FunctionEntry>)

  /**
   * A chat message. Only AI messages carry tool calls; `toolCalls` is None
   * when the message has no `tool_calls` key in its additional arguments.
   */
  datatype Message =
    | AI(toolCalls: Option<seq<ToolCall>>)
    | Tool(content: string)
    | Human(content: string)

  const SubmitToolName: string := "submit_final_diagnosis"

  // -----------------------------------------------------------------------
  // Bullet lists

  /** `"\n- ".join([""] + items)`, or the placeholder when there are no items. */
  function BulletList(items: seq<string>, placeholder: string): (r: string)
    ensures items == [] ==> r == placeholder
    ensures items != [] ==> r == Concat(seq(|items|, i requires 0 <= i < |items| => "\n- " + items[i]))
  {
    if |items| > 0 then
      JoinWithLeadingEmpty("\n- ", items);
      Join("\n- ", [""] + items)
    else placeholder
  }

  /** `get_insights_str` */
  function InsightsStr(insights: seq<string>): (r: string)
    ensures insights == [] ==> r == "No insights yet"
    ensures insights != [] ==> r == Concat(seq(|insights|, i requires 0 <= i < |insights| => "\n- " + insights[i]))
  {
    BulletList(insights, "No insights yet")
  }

  /** `get_prev_steps_str` */
  function PrevStepsStr(prevSteps: seq<string>): (r: string)
    ensures prevSteps == [] ==> r == "No previous steps yet"
    ensures prevSteps != [] ==> r == Concat(seq(|prevSteps|, i requires 0 <= i < |prevSteps| => "\n- " + prevSteps[i]))
  {
    BulletList(prevSteps, "No previous steps yet")
  }

  // -----------------------------------------------------------------------
  // Which calls are seen

  /** The names of the calls that have a function entry with a name, in order. */
  function NamedCalls(calls: seq<ToolCall>): seq<string>
  {
    if calls == [] then []
    else
      var c := calls[|calls| - 1];
      NamedCalls(calls[..|calls| - 1]) + (if c.fn.Some? && c.fn.value.name.Some? then [c.fn.value.name.value] else [])
  }

  /** The calls of one message: only AI messages with a `tool_calls` entry have any. */
  function MessageCalls(m: Message): seq<ToolCall>
  {
    if m.AI? && m.toolCalls.Some? then m.toolCalls.value else []
  }

  /** The names `count_tool_calls` collects, in message order. */
  function CalledNames(messages: seq<Message>): seq<string>
  {
    if messages == [] then []
    else CalledNames(messages[..|messages| - 1]) + NamedCalls(MessageCalls(messages[|messages| - 1]))
  }

  /** A call `count_non_submission_tool_calls` counts: it has a function entry whose name (default "") is not the submission tool's. */
  predicate CountsAgainstBudget(c: ToolCall)
  {
    c.fn.Some? && (if c.fn.value.name.Some? then c.fn.value.name.value else "") != SubmitToolName
  }

  function BudgetCalls(calls: seq<ToolCall>): nat
  {
    if calls == [] then 0
    else BudgetCalls(calls[..|calls| - 1]) + (if CountsAgainstBudget(calls[|calls| - 1]) then 1 else 0)
  }

  function NonSubmissionCount(messages: seq<Message>): nat
  {
    if messages == [] then 0
    else NonSubmissionCount(messages[..|messages| - 1]) + BudgetCalls(MessageCalls(messages[|messages| - 1]))
  }

  // -----------------------------------------------------------------------
  // The tally (`dict(Counter(names))`): one entry per distinct name, in order of first occurrence

  function KeysOf(t: seq<(string, nat)>): (r: seq<string>)
    ensures |r| == |t|
    ensures forall i :: 0 <= i < |t| ==> r[i] == t[i].0
  {
    if t == [] then [] else [t[0].0] + KeysOf(t[1..])
  }

  ghost predicate DistinctKeys(t: seq<(string, nat)>)
  {
    var keys := KeysOf(t);
    forall i, j :: 0 <= i < j < |keys| ==> keys[i] != keys[j]
  }

  /** The count recorded for `name`, 0 when it has no entry. */
  function CountOf(t: seq<(string, nat)>, name: string): nat
  {
    if t == [] then 0 else if t[0].0 == name then t[0].1 else CountOf(t[1..], name)
  }

  function SumCounts(t: seq<(string, nat)>): nat
  {
    if t == [] then 0 else t[0].1 + SumCounts(t[1..])
  }

  /** One more occurrence of `name`: bump its entry, or add it at the end with count 1. */
  function AddName(t: seq<(string, nat)>, name: string): (r: seq<(string, nat)>)
    ensures SumCounts(r) == SumCounts(t) + 1
    ensures forall k :: CountOf(r, k) == CountOf(t, k) + (if k == name then 1 else 0)
  {
    if t == [] then [(name, 1)]
    else if t[0].0 == name then [(name, t[0].1 + 1)] + t[1..]
    else [t[0]] + AddName(t[1..], name)
  }

  lemma {:induction false} AddNameKeys(t: seq<(string, nat)>, name: string)
    ensures name in KeysOf(t) ==> KeysOf(AddName(t, name)) == KeysOf(t)
    ensures name !in KeysOf(t) ==> KeysOf(AddName(t, name)) == KeysOf(t) + [name]
  {
    if t != [] && t[0].0 != name {
      AddNameKeys(t[1..], name);
      assert KeysOf(t) == [t[0].0] + KeysOf(t[1..]);
      assert KeysOf(AddName(t, name)) == [t[0].0] + KeysOf(AddName(t[1..], name));
    }
  }

  lemma {:induction false} AddNamePositive(t: seq<(string, nat)>, name: string)
    requires forall i :: 0 <= i < |t| ==> t[i].1 >= 1
    ensures forall i :: 0 <= i < |AddName(t, name)| ==> AddName(t, name)[i].1 >= 1
  {
    if t != [] && t[0].0 != name {
      AddNamePositive(t[1..], name);
      var r := AddName(t, name);
      assert r == [t[0]] + AddName(t[1..], name);
      forall i | 0 <= i < |r| ensures r[i].1 >= 1 {
        if i > 0 { assert r[i] == AddName(t[1..], name)[i - 1]; }
      }
    }
  }

  lemma {:induction false} AddNameDistinct(t: seq<(string, nat)>, name: string)
    requires DistinctKeys(t)
    ensures DistinctKeys(AddName(t, name))
  {
    AddNameKeys(t, name);
    var r := AddName(t, name);
    var kt, kr := KeysOf(t), KeysOf(r);
    if name !in kt {
      forall i, j | 0 <= i < j < |kr| ensures kr[i] != kr[j] {
        if j == |kt| {
          assert kr[i] == kt[i];
        } else {
          assert kr[i] == kt[i] && kr[j] == kt[j];
        }
      }
    }
  }

  /**
   * `dict(Counter(names))`: every entry's count is the number of occurrences
   * of its name, counts are positive, keys are distinct and are exactly the
   * names that occur, and the counts add up to the number of names.
   */
  function Tally(names: seq<string>): (r: seq<(string, nat)>)
    ensures DistinctKeys(r)
    ensures forall k :: CountOf(r, k) == multiset(names)[k]
    ensures forall k :: k in KeysOf(r) <==> k in names
    ensures forall i :: 0 <= i < |r| ==> r[i].1 >= 1
    ensures SumCounts(r) == |names|
  {
    if names == [] then []
    else
      var init := names[..|names| - 1];
      var last := names[|names| - 1];
      assert names == init + [last];
      assert multiset(names) == multiset(init) + multiset{last};
      var before := Tally(init);
      AddNameKeys(before, last);
      AddNameDistinct(before, last);
      AddNamePositive(before, last);
      AddName(before, last)
  }

  /** The position where a name first occurs. */
  function FirstIndex(s: seq<string>, k: string): (p: nat)
    requires k in s
    ensures p < |s| && s[p] == k
    ensures forall j :: 0 <= j < p ==> s[j] != k
  {
    if s[0] == k then 0 else 1 + FirstIndex(s[1..], k)
  }

  /** A position holding the name with no earlier occurrence is the first one. */
  lemma FirstIndexUnique(s: seq<string>, k: string, p: nat)
    requires p < |s| && s[p] == k && forall j :: 0 <= j < p ==> s[j] != k
    ensures FirstIndex(s, k) == p
  {
  }

  /** Every key occurs in `names`, and each first occurs before the next key does. */
  predicate InFirstOccurrenceOrder(keys: seq<string>, names: seq<string>)
  {
    && (forall i :: 0 <= i < |keys| ==> keys[i] in names)
    && (forall i, j :: 0 <= i < j < |keys| ==> FirstIndex(names, keys[i]) < FirstIndex(names, keys[j]))
  }

  /**
   * `Counter` keeps its keys in order of first occurrence: along the tally,
   * each name first occurs earlier than the next one.
   */
  lemma {:induction false} TallyKeyOrder(names: seq<string>)
    ensures InFirstOccurrenceOrder(KeysOf(Tally(names)), names)
  {
    if names != [] {
      var n := |names| - 1;
      var init, last := names[..n], names[n];
      assert names == init + [last];
      TallyKeyOrder(init);
      var before := KeysOf(Tally(init));
      AddNameKeys(Tally(init), last);
      assert last in before <==> last in init;
      KeyOrderStep(init, last, before, KeysOf(Tally(names)));
    }
  }

  /** One more name keeps the first-occurrence order of the keys. */
  lemma KeyOrderStep(init: seq<string>, last: string, before: seq<string>, keys: seq<string>)
    requires InFirstOccurrenceOrder(before, init)
    requires last in before <==> last in init
    requires last in before ==> keys == before
    requires last !in before ==> keys == before + [last]
    ensures InFirstOccurrenceOrder(keys, init + [last])
  {
    var names := init + [last];
    forall i | 0 <= i < |keys| ensures keys[i] in names {
      if i < |before| { assert keys[i] == before[i]; }
    }
    forall i, j | 0 <= i < j < |keys|
      ensures FirstIndex(names, keys[i]) < FirstIndex(names, keys[j])
    {
      var x := keys[i];
      assert x == before[i] && x in init;
      FirstIndexUnique(names, x, FirstIndex(init, x));
      if j < |before| {
        var y := keys[j];
        assert y == before[j] && y in init;
        FirstIndexUnique(names, y, FirstIndex(init, y));
      } else {
        FirstIndexUnique(names, last, |init|);
      }
    }
  }

  /** In an entry list with distinct keys, an entry's count is the one `CountOf` finds. */
  lemma {:induction false} CountOfEntry(t: seq<(string, nat)>, i: nat)
    requires DistinctKeys(t) && i < |t|
    ensures CountOf(t, t[i].0) == t[i].1
  {
    if i > 0 {
      var keys, rest := KeysOf(t), KeysOf(t[1..]);
      assert keys[0] != keys[i];
      assert keys == [t[0].0] + rest;
      CountOfEntry(t[1..], i - 1);
    }
  }

  // -----------------------------------------------------------------------
  // The loops

  lemma CalledNamesSnoc(messages: seq<Message>, m: nat)
    requires m < |messages|
    ensures CalledNames(messages[..m + 1]) == CalledNames(messages[..m]) + NamedCalls(MessageCalls(messages[m]))
  {
    assert messages[..m + 1][..m] == messages[..m];
  }

  lemma NamedCallsSnoc(before: seq<string>, calls: seq<ToolCall>, c: nat)
    requires c < |calls|
    ensures var x := calls[c];
      before + NamedCalls(calls[..c + 1])
        == before + NamedCalls(calls[..c]) + (if x.fn.Some? && x.fn.value.name.Some? then [x.fn.value.name.value] else [])
  {
    assert calls[..c + 1][..c] == calls[..c];
  }

  lemma TallySnoc(names: seq<string>, k: nat)
    requires k < |names|
    ensures Tally(names[..k + 1]) == AddName(Tally(names[..k]), names[k])
  {
    assert names[..k + 1][..k] == names[..k];
  }

  /** `count_tool_calls`: the per-tool tally of the named calls, submission tool included. */
  method CountToolCalls(messages: seq<Message>) returns (counts: seq<(string, nat)>)
    ensures counts == Tally(CalledNames(messages))
    ensures forall i :: 0 <= i < |counts| ==> counts[i].1 == multiset(CalledNames(messages))[counts[i].0]
  {
    var toolCalls: seq<string> := [];
    for m := 0 to |messages|
      invariant toolCalls == CalledNames(messages[..m])
    {
      var msg := messages[m];
      CalledNamesSnoc(messages, m);
      ghost var before := toolCalls;
      if msg.AI? && msg.toolCalls.Some? {
        var calls := msg.toolCalls.value;
        for c := 0 to |calls|
          invariant toolCalls == before + NamedCalls(calls[..c])
        {
          NamedCallsSnoc(before, calls, c);
          var call := calls[c];
          if call.fn.Some? {
            if call.fn.value.name.Some? {
              toolCalls := toolCalls + [call.fn.value.name.value];
            }
          }
        }
        assert calls[..|calls|] == calls;
      } else {
        assert NamedCalls(MessageCalls(msg)) == [];
      }
    }
    assert messages[..|messages|] == messages;
    // Counter(tool_calls)
    counts := [];
    for k := 0 to |toolCalls|
      invariant counts == Tally(toolCalls[..k])
    {
      TallySnoc(toolCalls, k);
      counts := AddName(counts, toolCalls[k]);
    }
    assert toolCalls[..|toolCalls|] == toolCalls;
    forall i | 0 <= i < |counts| ensures counts[i].1 == multiset(toolCalls)[counts[i].0] {
      CountOfEntry(counts, i);
    }
  }

  /** `count_non_submission_tool_calls`: the calls that count against the worker's budget. */
  method CountNonSubmissionToolCalls(messages: seq<Message>) returns (count: nat)
    ensures count == NonSubmissionCount(messages)
  {
    count := 0;
    for m := 0 to |messages|
      invariant count == NonSubmissionCount(messages[..m])
    {
      var msg := messages[m];
      assert messages[..m + 1][..m] == messages[..m];
      if msg.AI? && msg.toolCalls.Some? {
        var calls := msg.toolCalls.value;
        for c := 0 to |calls|
          invariant count == NonSubmissionCount(messages[..m]) + BudgetCalls(calls[..c])
        {
          assert calls[..c + 1][..c] == calls[..c];
          var call := calls[c];
          if call.fn.Some? {
            var toolName := if call.fn.value.name.Some? then call.fn.value.name.value else "";
            if toolName != SubmitToolName {
              count := count + 1;
            }
          }
        }
        assert calls[..|calls|] == calls;
      }
    }
    assert messages[..|messages|] == messages;
  }

  // -----------------------------------------------------------------------
  // How the two counters relate

  predicate AllNamed(c: ToolCall)
  {
    c.fn.Some? ==> c.fn.value.name.Some?
  }

  lemma {:induction false} BudgetCallsOfNamed(calls: seq<ToolCall>)
    requires forall i :: 0 <= i < |calls| ==> AllNamed(calls[i])
    ensures BudgetCalls(calls) + multiset(NamedCalls(calls))[SubmitToolName] == |NamedCalls(calls)|
  {
    if calls != [] {
      BudgetCallsOfNamed(calls[..|calls| - 1]);
    }
  }

  /**
   * When every call that has a function entry also has a name, the budget
   * count is the tally's total minus the submission tool's entry.
   */
  lemma {:induction false} NonSubmissionIsTotalMinusSubmissions(messages: seq<Message>)
    requires forall m :: m in messages ==> forall i :: 0 <= i < |MessageCalls(m)| ==> AllNamed(MessageCalls(m)[i])
    ensures NonSubmissionCount(messages) == SumCounts(Tally(CalledNames(messages))) - CountOf(Tally(CalledNames(messages)), SubmitToolName)
  {
    if messages != [] {
      var init := messages[..|messages| - 1];
      var last := messages[|messages| - 1];
      NonSubmissionIsTotalMinusSubmissions(init);
      BudgetCallsOfNamed(MessageCalls(last));
    }
  }

  /**
   * A message whose one call has a function entry without a name adds one
   * to the budget count, but nothing to the names, so the tally is the
   * same as without it.
   */
  lemma UnnamedCallCountsOnlyForBudget(messages: seq<Message>)
    ensures var more := messages + [AI(Some([ToolCall(Some(FunctionEntry(None)))]))];
      && NonSubmissionCount(more) == NonSubmissionCount(messages) + 1
      && CalledNames(more) == CalledNames(messages)
      && Tally(CalledNames(more)) == Tally(CalledNames(messages))
  {
    var more := messages + [AI(Some([ToolCall(Some(FunctionEntry(None)))]))];
    assert more[..|more| - 1] == messages;
    var calls := [ToolCall(Some(FunctionEntry(None)))];
    assert calls[..0] == [];
  }
}
