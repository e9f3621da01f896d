// The parent workflow: the router that fans the planner's tasks out to RCA
// workers (or goes straight to the supervisor when there are none), the
// fixed edges around it, and the list concatenation that gathers the
// workers' records.

module Graph {
  import opened Values
  import opened Schemas
  import opened Helpers
  import RcaAgent
  import Reducers

  /** The parent state as the router reads it; `None` is a missing key. */
  datatype ParentState = ParentState(
    appName: Option<string>,
    appSummary: Option<string>,
    targetNamespace: Option<string>,
    symptoms: Option<seq<Symptom>>,
    rcaTasks: Option<seq<RCATask>>,
    analyses: seq<Value>)

  /** A `Send`: the supervisor's input, or one worker's initial state. */
  datatype Send =
    | ToSupervisor(appName: Option<string>, appSummary: Option<string>, symptoms: seq<Symptom>, analyses: seq<Value>)
    | ToWorker(worker: RcaAgent.WorkerState)

  function SendTarget(s: Send): string
  {
    if s.ToSupervisor? then "supervisor_agent" else "rca_agent"
  }

  function OrDefault<T>(o: Option<T>, d: T): (r: T)
    ensures o.Some? ==> r == o.value
    ensures o.None? ==> r == d
  {
    if o.Some? then o.value else d
  }

  /** A fresh worker for one task: empty history, lists and output. */
  predicate FreshWorkerFor(w: RcaAgent.WorkerState, task: RCATask, state: ParentState)
  {
    && w.task == task
    && w.appSummary == OrDefault(state.appSummary, "")
    && w.targetNamespace == OrDefault(state.targetNamespace, "")
    && w.messages == [] && w.insights == [] && w.prevSteps == [] && w.analyses == []
    && w.rcaOutput == map[]
  }

  /**
   * `rca_router`: with no tasks (missing or empty) a single send to the
   * supervisor with no analyses; otherwise one fresh worker per task, in
   * task order, and no send to the supervisor.
   */
  method RcaRouter(state: ParentState) returns (sends: seq<Send>)
    ensures OrDefault(state.rcaTasks, []) == [] ==>
              sends == [ToSupervisor(state.appName, state.appSummary, OrDefault(state.symptoms, []), [])]
    ensures OrDefault(state.rcaTasks, []) != [] ==>
              && |sends| == |state.rcaTasks.value|
              && forall i :: 0 <= i < |sends| ==> sends[i].ToWorker? && FreshWorkerFor(sends[i].worker, state.rcaTasks.value[i], state)
    ensures forall i :: 0 <= i < |sends| ==> (SendTarget(sends[i]) == "supervisor_agent" <==> OrDefault(state.rcaTasks, []) == [])
  {
    var rcaTasks := if state.rcaTasks.Some? then state.rcaTasks.value else [];
    if |rcaTasks| == 0 {
      var symptoms := if state.symptoms.Some? then state.symptoms.value else [];
      return [ToSupervisor(state.appName, state.appSummary, symptoms, [])];
    }
    var parallelRcaCalls: seq<Send> := [];
    for k := 0 to |rcaTasks|
      invariant |parallelRcaCalls| == k
      invariant forall i :: 0 <= i < k ==> parallelRcaCalls[i].ToWorker? && FreshWorkerFor(parallelRcaCalls[i].worker, rcaTasks[i], state)
    {
      var task := rcaTasks[k];
      var rcaInputState := RcaAgent.WorkerState(
        [],
        if state.appSummary.Some? then state.appSummary.value else "",
        if state.targetNamespace.Some? then state.targetNamespace.value else "",
        task, [], [], map[], []);
      parallelRcaCalls := parallelRcaCalls + [ToWorker(rcaInputState)];
    }
    sends := parallelRcaCalls;
  }

  // -----------------------------------------------------------------------
  // The parent graph

  datatype ParentNode = Start | Triage | Planner | Worker | Supervisor | End

  function NodeOf(target: string): ParentNode
  {
    if target == "supervisor_agent" then Supervisor else Worker
  }

  /** The nodes that follow `node`; after the planner they are the targets of the router's sends. */
  function Successors(node: ParentNode, sends: seq<Send>): (next: set<ParentNode>)
    ensures node != Planner ==> |next| == 1
    ensures node == Planner ==> next <= {Worker, Supervisor}
  {
    match node
    case Start => {Triage}
    case Triage => {Planner}
    case Planner => set i | 0 <= i < |sends| :: NodeOf(SendTarget(sends[i]))
    case Worker => {Supervisor}
    case Supervisor => {End}
    case End => {End}
  }

  /**
   * After the planner the run goes to the workers when there are tasks and
   * straight to the supervisor when there are none; workers always hand
   * over to the supervisor, which ends the run.
   */
  lemma {:induction false} RoutingAfterPlanner(state: ParentState, sends: seq<Send>)
    requires OrDefault(state.rcaTasks, []) == [] ==>
               sends == [ToSupervisor(state.appName, state.appSummary, OrDefault(state.symptoms, []), [])]
    requires OrDefault(state.rcaTasks, []) != [] ==>
               && |sends| == |state.rcaTasks.value|
               && forall i :: 0 <= i < |sends| ==> sends[i].ToWorker?
    ensures OrDefault(state.rcaTasks, []) == [] ==> Successors(Planner, sends) == {Supervisor}
    ensures OrDefault(state.rcaTasks, []) != [] ==> Successors(Planner, sends) == {Worker}
    ensures Successors(Worker, sends) == {Supervisor} && Successors(Supervisor, sends) == {End}
  {
    if OrDefault(state.rcaTasks, []) == [] {
      assert NodeOf(SendTarget(sends[0])) == Supervisor;
    } else {
      assert NodeOf(SendTarget(sends[0])) == Worker;
    }
  }

  // -----------------------------------------------------------------------
  // Gathering the workers' records

  /** The `operator.add` reducer of `rca_analyses_list`. */
  function AddAnalyses(left: seq<Value>, right: seq<Value>): (r: seq<Value>)
    ensures |r| == |left| + |right|
    ensures r[..|left|] == left && r[|left|..] == right
  {
    left + right
  }

  /** The parent's list after the workers' updates are applied one after another. */
  function Gather(acc: seq<Value>, updates: seq<seq<Value>>): seq<Value>
    decreases |updates|
  {
    if updates == [] then acc else Gather(AddAnalyses(acc, updates[0]), updates[1..])
  }

  /**
   * Gathering keeps every record of every worker, in update order: nothing
   * is deduplicated, so two workers that emit equal records both count.
   */
  lemma {:induction false} GatherKeepsAll(acc: seq<Value>, updates: seq<seq<Value>>)
    ensures Gather(acc, updates) == acc + Concat2(updates)
    decreases |updates|
  {
    if updates != [] {
      GatherKeepsAll(acc + updates[0], updates[1..]);
      assert acc + updates[0] + Concat2(updates[1..]) == acc + (updates[0] + Concat2(updates[1..]));
    }
  }

  /** The records of all updates, one after another. */
  function Concat2(updates: seq<seq<Value>>): seq<Value>
  {
    if updates == [] then [] else updates[0] + Concat2(updates[1..])
  }

  /**
   * A worker's record files its task without a priority, so the priority
   * merger (which the parent does not use) would find no priority in it.
   */
  lemma WorkerRecordHasNoPriority(record: Value, task: RCATask)
    requires record.Obj? && "task" in record.fields && record.fields["task"] == Obj(TaskRecord(task))
    ensures Reducers.PriorityOf(record).None?
  {
    assert "priority" !in TaskRecord(task);
  }

  /** Merging by priority would therefore discard every worker record. */
  lemma MergeDropsWorkerRecords(left: seq<Value>, records: seq<Value>, tasks: seq<RCATask>)
    requires |records| == |tasks|
    requires forall i :: 0 <= i < |records| ==>
               records[i].Obj? && "task" in records[i].fields && records[i].fields["task"] == Obj(TaskRecord(tasks[i]))
    ensures Reducers.Merge(left, records) == Reducers.Merge(left, [])
  {
    forall i | 0 <= i < |records|
      ensures Reducers.PriorityOf(records[i]).None?
    {
      WorkerRecordHasNoPriority(records[i], tasks[i]);
    }
    Reducers.CollectDropsUnfiled(left, records);
    assert left + [] == left;
  }

}
