/** The flow executor and the flow manager (WebsiteFlowManager): running a
    flow's actions one at a time against the task runner, checkpointing
    every step in the store, checking for missing inputs, and creating flows,
    from explicit action lists or from the planner's answers. */
module Flows {
  import opened Values
  import opened Environment
  import opened Marqo
  import opened Skyvern
  import opened Blocks
  import opened Inputs
  import opened Dedup
  import opened Planner

  datatype FlowError =
    | FlowNotFound(flowId: Id)           // get_document raises on the flows index
    | ActionNotFound(actionId: Id)       // get_action gave None and the caller indexes it
    | TaskTimedOut(taskId: Id)           // TimeoutError from wait_for_completion
    | TaskUnfinished(taskId: Id)         // the remote's scripted answers ran out first
    | PlanFailed(reason: PlanError)
    | MissingRequiredInputs(names: set<string>)

  /** The record create_flow returns. */
  datatype FlowRecord = FlowRecord(id: Id, name: string, description: string, actions: seq<Id>)

  /** ActionExecution(action_id, inputs): a fresh record, still pending. */
  function NewActionExecution(id: Id, actionId: Id, inputs: Dict): ActionExecution {
    ActionExecution(id, actionId, inputs, Pending, None, None, None, None, None)
  }

  /** The task create_task posts for an action with the given payload. */
  function RequestFor(a: Action, inputs: Dict): (r: TaskRequest)
    ensures HasScheme(r.url) && |a.url| <= |r.url| && r.url[|r.url| - |a.url|..] == a.url
    ensures r.navigationPayload == inputs && r.proxyLocation == "RESIDENTIAL"
  {
    TaskRequest(NormalizeUrl(a.url), a.navigationGoal, a.dataExtractionGoal, inputs, "RESIDENTIAL")
  }

  /** An action execution as execute_flow leaves it: COMPLETED whatever
      terminal status the remote reported, with the task's extracted
      information (or {}) as its output. */
  ghost predicate RecordsAction(ae: ActionExecution, actionId: Id, inputs: Dict, taskId: Id, result: TaskResult) {
    && ae.actionId == actionId
    && ae.inputs == inputs
    && ae.status == ActionExecutionStatus.Completed
    && ae.skyvernTaskId == Some(taskId)
    && ae.output == Some(OutputOf(result))
    && ae.error == None
    && ae.startedAt.Some? && ae.completedAt.Some?
  }

  /** The i-th action execution records the i-th action of the flow, run as
      the (firstTask + i)-th remote task, which returned the i-th terminal
      answer. */
  ghost predicate RanInOrder(aes: seq<ActionExecution>, flowActions: seq<Id>, inputs: Dict, firstTask: nat, results: seq<TaskResult>) {
    && |aes| <= |flowActions|
    && |results| == |aes|
    && forall k :: 0 <= k < |aes| ==> RecordsAction(aes[k], flowActions[k], inputs, firstTask + k, results[k])
  }

  /** The k-th task posted is the k-th action of the flow. */
  ghost predicate DispatchedInOrder(posted: seq<TaskRequest>, flowActions: seq<Id>, actions: map<Id, Action>, inputs: Dict) {
    && |posted| <= |flowActions|
    && forall k :: 0 <= k < |posted| ==> flowActions[k] in actions && posted[k] == RequestFor(actions[flowActions[k]], inputs)
  }

  /** `outputs` has one key per action execution, its id (all different),
      mapped to that execution's output. */
  ghost predicate OutputsIndexed(outputs: map<Id, Json>, aes: seq<ActionExecution>) {
    && (forall j, k :: 0 <= j < k < |aes| ==> aes[j].id < aes[k].id)
    && outputs.Keys == (set k | 0 <= k < |aes| :: aes[k].id)
    && forall k :: 0 <= k < |aes| ==> aes[k].output == Some(outputs[aes[k].id])
  }

  lemma OutputsIndexedAppend(outputs: map<Id, Json>, aes: seq<ActionExecution>, ae: ActionExecution, v: Json)
    requires OutputsIndexed(outputs, aes)
    requires forall k :: 0 <= k < |aes| ==> aes[k].id < ae.id
    requires ae.output == Some(v)
    ensures OutputsIndexed(outputs[ae.id := v], aes + [ae])
  {
    var aes' := aes + [ae];
    var before, after := set k | 0 <= k < |aes| :: aes[k].id, set k | 0 <= k < |aes'| :: aes'[k].id;
    forall k | 0 <= k < |aes'|
      ensures aes'[k].id in before + {ae.id}
    {
      if k < |aes| {
        assert aes'[k].id == aes[k].id;
      }
    }
    forall k | 0 <= k < |aes|
      ensures aes[k].id in after
    {
      assert aes'[k].id == aes[k].id;
    }
    assert aes'[|aes|].id == ae.id;
    assert after == before + {ae.id};
  }

  /** The document store_execution writes once the k-th action execution
      of a still running flow execution is appended. */
  function Checkpoint(flowId: Id, inputs: Dict, aes: seq<ActionExecution>, k: nat, startedAt: Option<Time>): ExecutionDoc
    requires k < |aes|
  {
    ExecutionDoc(flowId, inputs, aes[..k + 1], ActionExecutionStatus.Running, startedAt, None)
  }

  /** What execute_flow has done after the action executions `aes`: they
      record the flow's first actions in order, their outputs are indexed by
      execution id, the tasks posted since the start are the flow's first
      actions, and the k-th new execution document is the checkpoint taken
      after the k-th action. */
  ghost predicate Progress(
    flowId: Id, flowActions: seq<Id>, actions: map<Id, Action>, inputs: Dict, startedAt: Option<Time>, firstTask: nat,
    aes: seq<ActionExecution>, outputs: map<Id, Json>, posted: seq<TaskRequest>, consumed: seq<PollStep>,
    log: seq<Id>, executions: map<Id, ExecutionDoc>)
  {
    && RanInOrder(aes, flowActions, inputs, firstTask, Terminals(consumed))
    && OutputsIndexed(outputs, aes)
    && DispatchedInOrder(posted, flowActions, actions, inputs)
    && |log| == |aes|
    && forall k :: 0 <= k < |log| ==>
         log[k] in executions && executions[log[k]] == Checkpoint(flowId, inputs, aes, k, startedAt)
  }

  lemma RanInOrderAppend(aes: seq<ActionExecution>, flowActions: seq<Id>, inputs: Dict, firstTask: nat, results: seq<TaskResult>,
                         ae: ActionExecution, r: TaskResult)
    requires RanInOrder(aes, flowActions, inputs, firstTask, results) && |aes| < |flowActions|
    requires RecordsAction(ae, flowActions[|aes|], inputs, firstTask + |aes|, r)
    ensures RanInOrder(aes + [ae], flowActions, inputs, firstTask, results + [r])
  {
    var aes', results' := aes + [ae], results + [r];
    forall k | 0 <= k < |aes'|
      ensures RecordsAction(aes'[k], flowActions[k], inputs, firstTask + k, results'[k])
    {
      if k < |aes| {
        assert aes'[k] == aes[k] && results'[k] == results[k];
      }
    }
  }

  lemma DispatchedAppend(posted: seq<TaskRequest>, flowActions: seq<Id>, actions: map<Id, Action>, inputs: Dict)
    requires DispatchedInOrder(posted, flowActions, actions, inputs)
    requires |posted| < |flowActions| && flowActions[|posted|] in actions
    ensures DispatchedInOrder(posted + [RequestFor(actions[flowActions[|posted|]], inputs)], flowActions, actions, inputs)
  {
    var posted' := posted + [RequestFor(actions[flowActions[|posted|]], inputs)];
    forall k | 0 <= k < |posted'|
      ensures flowActions[k] in actions && posted'[k] == RequestFor(actions[flowActions[k]], inputs)
    {
      if k < |posted| {
        assert posted'[k] == posted[k];
      }
    }
  }

  /** The checkpoints so far, and one more after appending `ae`. */
  lemma CheckpointsAppend(flowId: Id, inputs: Dict, startedAt: Option<Time>, aes: seq<ActionExecution>,
                          log: seq<Id>, executions: map<Id, ExecutionDoc>, ae: ActionExecution, doc: Id, executions': map<Id, ExecutionDoc>)
    requires |log| == |aes|
    requires forall k :: 0 <= k < |log| ==>
      log[k] in executions && executions[log[k]] == Checkpoint(flowId, inputs, aes, k, startedAt)
    requires forall id :: id in executions ==> id in executions' && executions'[id] == executions[id]
    requires doc in executions' && executions'[doc] == ExecutionDoc(flowId, inputs, aes + [ae], ActionExecutionStatus.Running, startedAt, None)
    ensures var log', aes' := log + [doc], aes + [ae];
      forall k :: 0 <= k < |log'| ==>
        log'[k] in executions' && executions'[log'[k]] == Checkpoint(flowId, inputs, aes', k, startedAt)
  {
    var log', aes' := log + [doc], aes + [ae];
    forall k | 0 <= k < |log'|
      ensures log'[k] in executions' && executions'[log'[k]] == Checkpoint(flowId, inputs, aes', k, startedAt)
    {
      if k < |log| {
        assert log'[k] == log[k];
        assert aes'[..k + 1] == aes[..k + 1];
      } else {
        assert aes'[..k + 1] == aes';
      }
    }
  }

  /** One more action run to completion keeps Progress. */
  lemma ProgressStep(
    flowId: Id, flowActions: seq<Id>, actions: map<Id, Action>, inputs: Dict, startedAt: Option<Time>, firstTask: nat,
    aes: seq<ActionExecution>, outputs: map<Id, Json>, posted: seq<TaskRequest>, consumed: seq<PollStep>,
    log: seq<Id>, executions: map<Id, ExecutionDoc>,
    ae: ActionExecution, r: TaskResult, step: seq<PollStep>, doc: Id, executions': map<Id, ExecutionDoc>)
    requires Progress(flowId, flowActions, actions, inputs, startedAt, firstTask, aes, outputs, posted, consumed, log, executions)
    requires |aes| < |flowActions| && |posted| == |aes| && flowActions[|aes|] in actions
    requires RecordsAction(ae, flowActions[|aes|], inputs, firstTask + |aes|, r)
    requires forall k :: 0 <= k < |aes| ==> aes[k].id < ae.id
    requires Terminals(step) == [r]
    requires forall id :: id in executions ==> id in executions' && executions'[id] == executions[id]
    requires doc in executions' && executions'[doc] == ExecutionDoc(flowId, inputs, aes + [ae], ActionExecutionStatus.Running, startedAt, None)
    ensures Progress(flowId, flowActions, actions, inputs, startedAt, firstTask,
      aes + [ae], outputs[ae.id := OutputOf(r)], posted + [RequestFor(actions[flowActions[|aes|]], inputs)],
      consumed + step, log + [doc], executions')
  {
    TerminalsAppend(consumed, step);
    RanInOrderAppend(aes, flowActions, inputs, firstTask, Terminals(consumed), ae, r);
    OutputsIndexedAppend(outputs, aes, ae, OutputOf(r));
    DispatchedAppend(posted, flowActions, actions, inputs);
    CheckpointsAppend(flowId, inputs, startedAt, aes, log, executions, ae, doc, executions');
  }

  /** An action whose task was posted but whose wait gave up (no terminal
      answer consumed) keeps Progress without a new execution. */
  lemma ProgressStall(
    flowId: Id, flowActions: seq<Id>, actions: map<Id, Action>, inputs: Dict, startedAt: Option<Time>, firstTask: nat,
    aes: seq<ActionExecution>, outputs: map<Id, Json>, posted: seq<TaskRequest>, consumed: seq<PollStep>,
    log: seq<Id>, executions: map<Id, ExecutionDoc>, step: seq<PollStep>)
    requires Progress(flowId, flowActions, actions, inputs, startedAt, firstTask, aes, outputs, posted, consumed, log, executions)
    requires |aes| < |flowActions| && |posted| == |aes| && flowActions[|aes|] in actions
    requires Terminals(step) == []
    ensures Progress(flowId, flowActions, actions, inputs, startedAt, firstTask,
      aes, outputs, posted + [RequestFor(actions[flowActions[|aes|]], inputs)], consumed + step, log, executions)
  {
    TerminalsAppend(consumed, step);
  }

  /** What one pass of execute_flow's loop does, on values: the state
      before (…0) and after (…1) the action `actionId` was looked up, its
      task dispatched with `taskInputs` and awaited, and, when the task
      ended, its execution appended and checkpointed with the flow
      execution's other fields `flowId`… `completedAt`. */
  ghost predicate RanAction(
    flowId: Id, initialInputs: Dict, status: ActionExecutionStatus, startedAt: Option<Time>, completedAt: Option<Time>,
    actionId: Id, actions: map<Id, Action>, taskInputs: Dict,
    posted0: seq<TaskRequest>, script0: seq<PollStep>, aes0: seq<ActionExecution>, outputs0: map<Id, Json>,
    executions0: map<Id, ExecutionDoc>, log0: seq<Id>, next0: Id,
    err: Option<FlowError>, ae: ActionExecution, doc: Id,
    posted1: seq<TaskRequest>, script1: seq<PollStep>, aes1: seq<ActionExecution>, outputs1: map<Id, Json>,
    executions1: map<Id, ExecutionDoc>, log1: seq<Id>, next1: Id)
  {
    && next0 <= next1
    && (actionId !in actions ==>
          && err == Some(ActionNotFound(actionId))
          && aes1 == aes0 && outputs1 == outputs0 && posted1 == posted0 && script1 == script0
          && executions1 == executions0 && log1 == log0)
    && (actionId in actions ==>
          var w := PollFrom(script0, 0, DefaultPollingInterval, DefaultTimeout, false);
          && posted1 == posted0 + [RequestFor(actions[actionId], taskInputs)]
          && script1 == script0[w.polls..]
          && (w.outcome.TimedOut? ==> err == Some(TaskTimedOut(|posted0|)))
          && (w.outcome.Exhausted? ==> err == Some(TaskUnfinished(|posted0|)))
          && (!w.outcome.Finished? ==>
                aes1 == aes0 && outputs1 == outputs0 && executions1 == executions0 && log1 == log0)
          && (w.outcome.Finished? ==>
                && err == None
                && next0 == ae.id < next1
                && RecordsAction(ae, actionId, taskInputs, |posted0|, w.outcome.result)
                && aes1 == aes0 + [ae]
                && outputs1 == outputs0[ae.id := OutputOf(w.outcome.result)]
                && doc !in executions0
                && executions1 == executions0[doc := ExecutionDoc(flowId, initialInputs, aes1, status, startedAt, completedAt)]
                && log1 == log0 + [doc]))
  }

  /** The accounts execute_flow's loop keeps: since its start (first…) the
      tasks `posts` were posted, the answers `consumed` were consumed and
      the documents `logged` were added, no earlier document changed, every
      execution id is below the next fresh id, and Progress holds. */
  ghost predicate Accounted(
    flowId: Id, flowActions: seq<Id>, actions: map<Id, Action>, inputs: Dict, startedAt: Option<Time>,
    firstPosted: seq<TaskRequest>, firstScript: seq<PollStep>, firstLog: seq<Id>, firstExecutions: map<Id, ExecutionDoc>,
    posts: seq<TaskRequest>, consumed: seq<PollStep>, logged: seq<Id>,
    posted: seq<TaskRequest>, script: seq<PollStep>, aes: seq<ActionExecution>, outputs: map<Id, Json>,
    executions: map<Id, ExecutionDoc>, log: seq<Id>, next: Id)
  {
    && Ledger(firstPosted, firstScript, firstLog, firstExecutions, posts, consumed, logged, posted, script, aes, executions, log, next)
    && Progress(flowId, flowActions, actions, inputs, startedAt, |firstPosted|, aes, outputs, posts, consumed, logged, executions)
  }

  /** The part of Accounted about the stores rather than the flow. */
  ghost predicate Ledger(
    firstPosted: seq<TaskRequest>, firstScript: seq<PollStep>, firstLog: seq<Id>, firstExecutions: map<Id, ExecutionDoc>,
    posts: seq<TaskRequest>, consumed: seq<PollStep>, logged: seq<Id>,
    posted: seq<TaskRequest>, script: seq<PollStep>, aes: seq<ActionExecution>,
    executions: map<Id, ExecutionDoc>, log: seq<Id>, next: Id)
  {
    && posted == firstPosted + posts && firstScript == consumed + script && log == firstLog + logged
    && (forall id :: id in firstExecutions ==> id in executions && executions[id] == firstExecutions[id])
    && (forall k :: 0 <= k < |aes| ==> aes[k].id < next)
  }

  /** Posting `request` and consuming the first `polls` answers moves them
      from the stores' remainders into the accounts. */
  lemma LedgerStall(
    firstPosted: seq<TaskRequest>, firstScript: seq<PollStep>, firstLog: seq<Id>, firstExecutions: map<Id, ExecutionDoc>,
    posts: seq<TaskRequest>, consumed: seq<PollStep>, logged: seq<Id>,
    posted0: seq<TaskRequest>, script0: seq<PollStep>, aes0: seq<ActionExecution>,
    executions0: map<Id, ExecutionDoc>, log0: seq<Id>, next0: Id, request: TaskRequest, polls: nat, next1: Id)
    requires Ledger(firstPosted, firstScript, firstLog, firstExecutions, posts, consumed, logged, posted0, script0, aes0, executions0, log0, next0)
    requires polls <= |script0| && next0 <= next1
    ensures Ledger(firstPosted, firstScript, firstLog, firstExecutions, posts + [request], consumed + script0[..polls], logged,
      posted0 + [request], script0[polls..], aes0, executions0, log0, next1)
  {
    SplitAt(script0, polls);
    AppendAssociates(firstPosted, posts, [request]);
    AppendAssociates(consumed, script0[..polls], script0[polls..]);
  }

  /** The same, when also the execution `ae` is appended and the new
      document `doc` is stored. */
  lemma LedgerStep(
    firstPosted: seq<TaskRequest>, firstScript: seq<PollStep>, firstLog: seq<Id>, firstExecutions: map<Id, ExecutionDoc>,
    posts: seq<TaskRequest>, consumed: seq<PollStep>, logged: seq<Id>,
    posted0: seq<TaskRequest>, script0: seq<PollStep>, aes0: seq<ActionExecution>,
    executions0: map<Id, ExecutionDoc>, log0: seq<Id>, next0: Id, request: TaskRequest, polls: nat,
    ae: ActionExecution, doc: Id, d: ExecutionDoc, next1: Id)
    requires Ledger(firstPosted, firstScript, firstLog, firstExecutions, posts, consumed, logged, posted0, script0, aes0, executions0, log0, next0)
    requires polls <= |script0| && next0 == ae.id < next1 && doc !in executions0
    ensures Ledger(firstPosted, firstScript, firstLog, firstExecutions, posts + [request], consumed + script0[..polls], logged + [doc],
      posted0 + [request], script0[polls..], aes0 + [ae], executions0[doc := d], log0 + [doc], next1)
  {
    LedgerStall(firstPosted, firstScript, firstLog, firstExecutions, posts, consumed, logged,
      posted0, script0, aes0, executions0, log0, next0, request, polls, next1);
    AppendAssociates(firstLog, logged, [doc]);
    var aes1 := aes0 + [ae];
    forall k | 0 <= k < |aes1|
      ensures aes1[k].id < next1
    {
      if k < |aes0| {
        assert aes1[k] == aes0[k];
      }
    }
  }

  /** Nothing done yet is accounted for. */
  lemma AccountedAtStart(
    flowId: Id, flowActions: seq<Id>, actions: map<Id, Action>, inputs: Dict, startedAt: Option<Time>,
    posted: seq<TaskRequest>, script: seq<PollStep>, executions: map<Id, ExecutionDoc>, log: seq<Id>, next: Id)
    ensures Accounted(flowId, flowActions, actions, inputs, startedAt, posted, script, log, executions,
      [], [], [], posted, script, [], map[], executions, log, next)
  {
    assert posted + [] == posted && [] + script == script && log + [] == log;
  }

  /** The bookkeeping of one pass of execute_flow's loop, on values: after
      the i-th action ran (RanAction), the accounts carry over, an error
      names the action or the task it stopped at, and the outcome so far
      is the one FlowOutcome predicts. */
  lemma AfterRunAction(
    flowId: Id, flowActions: seq<Id>, actions: map<Id, Action>, inputs: Dict, startedAt: Option<Time>, i: nat,
    firstPosted: seq<TaskRequest>, firstScript: seq<PollStep>, firstLog: seq<Id>, firstExecutions: map<Id, ExecutionDoc>,
    posts: seq<TaskRequest>, consumed: seq<PollStep>, logged: seq<Id>,
    posted0: seq<TaskRequest>, script0: seq<PollStep>, aes0: seq<ActionExecution>, outputs0: map<Id, Json>,
    executions0: map<Id, ExecutionDoc>, log0: seq<Id>, next0: Id,
    err: Option<FlowError>, ae: ActionExecution, doc: Id,
    posted1: seq<TaskRequest>, script1: seq<PollStep>, aes1: seq<ActionExecution>, outputs1: map<Id, Json>,
    executions1: map<Id, ExecutionDoc>, log1: seq<Id>, next1: Id)
    returns (posts': seq<TaskRequest>, consumed': seq<PollStep>, logged': seq<Id>)
    requires i < |flowActions| && |aes0| == i && |posts| == i
    requires Accounted(flowId, flowActions, actions, inputs, startedAt, firstPosted, firstScript, firstLog, firstExecutions,
      posts, consumed, logged, posted0, script0, aes0, outputs0, executions0, log0, next0)
    requires RanAction(flowId, inputs, ActionExecutionStatus.Running, startedAt, None, flowActions[i], actions, inputs,
      posted0, script0, aes0, outputs0, executions0, log0, next0, err, ae, doc,
      posted1, script1, aes1, outputs1, executions1, log1, next1)
    requires OutcomeSoFar(flowActions, actions, firstScript, |firstPosted|, i, |consumed|, script0)
    ensures Accounted(flowId, flowActions, actions, inputs, startedAt, firstPosted, firstScript, firstLog, firstExecutions,
      posts', consumed', logged', posted1, script1, aes1, outputs1, executions1, log1, next1)
    ensures err.None? ==> |aes1| == i + 1 && |posts'| == i + 1
    ensures err.None? ==> OutcomeSoFar(flowActions, actions, firstScript, |firstPosted|, i + 1, |consumed'|, script1)
    ensures err.Some? ==> FlowOutcome(flowActions, actions, firstScript, |firstPosted|) == RunEnd(err, |consumed'|)
    ensures err.Some? ==> aes1 == aes0 && StoppedAt(flowActions, actions, |firstPosted|, i, err, |posts'|)
  {
    assert |posted0| == |firstPosted| + i;
    OutcomeAfterAction(flowId, flowActions, actions, inputs, startedAt, i, firstScript, |firstPosted|, |consumed|,
      posted0, script0, aes0, outputs0, executions0, log0, next0, err, ae, doc,
      posted1, script1, aes1, outputs1, executions1, log1, next1);
    posts', consumed', logged' := AccountAction(flowId, flowActions, actions, inputs, startedAt, i,
        firstPosted, firstScript, firstLog, firstExecutions, posts, consumed, logged,
        posted0, script0, aes0, outputs0, executions0, log0, next0, err, ae, doc,
        posted1, script1, aes1, outputs1, executions1, log1, next1);
  }

  /** The outcome part of AfterRunAction: OutcomeStep for the action
      RunAction ran. */
  lemma OutcomeAfterAction(
    flowId: Id, flowActions: seq<Id>, actions: map<Id, Action>, inputs: Dict, startedAt: Option<Time>, i: nat,
    firstScript: seq<PollStep>, firstTask: nat, done: nat,
    posted0: seq<TaskRequest>, script0: seq<PollStep>, aes0: seq<ActionExecution>, outputs0: map<Id, Json>,
    executions0: map<Id, ExecutionDoc>, log0: seq<Id>, next0: Id,
    err: Option<FlowError>, ae: ActionExecution, doc: Id,
    posted1: seq<TaskRequest>, script1: seq<PollStep>, aes1: seq<ActionExecution>, outputs1: map<Id, Json>,
    executions1: map<Id, ExecutionDoc>, log1: seq<Id>, next1: Id)
    requires i < |flowActions| && |posted0| == firstTask + i
    requires RanAction(flowId, inputs, ActionExecutionStatus.Running, startedAt, None, flowActions[i], actions, inputs,
      posted0, script0, aes0, outputs0, executions0, log0, next0, err, ae, doc,
      posted1, script1, aes1, outputs1, executions1, log1, next1)
    requires OutcomeSoFar(flowActions, actions, firstScript, firstTask, i, done, script0)
    ensures |script1| <= |script0|
    ensures err.None? ==> OutcomeSoFar(flowActions, actions, firstScript, firstTask, i + 1, done + |script0| - |script1|, script1)
    ensures err.Some? ==> FlowOutcome(flowActions, actions, firstScript, firstTask) == RunEnd(err, done + |script0| - |script1|)
  {
    OutcomeStep(flowActions, actions, firstScript, firstTask, i, done, script0, err, script1);
  }

  /** The accounts part of AfterRunAction. */
  lemma AccountAction(
    flowId: Id, flowActions: seq<Id>, actions: map<Id, Action>, inputs: Dict, startedAt: Option<Time>, i: nat,
    firstPosted: seq<TaskRequest>, firstScript: seq<PollStep>, firstLog: seq<Id>, firstExecutions: map<Id, ExecutionDoc>,
    posts: seq<TaskRequest>, consumed: seq<PollStep>, logged: seq<Id>,
    posted0: seq<TaskRequest>, script0: seq<PollStep>, aes0: seq<ActionExecution>, outputs0: map<Id, Json>,
    executions0: map<Id, ExecutionDoc>, log0: seq<Id>, next0: Id,
    err: Option<FlowError>, ae: ActionExecution, doc: Id,
    posted1: seq<TaskRequest>, script1: seq<PollStep>, aes1: seq<ActionExecution>, outputs1: map<Id, Json>,
    executions1: map<Id, ExecutionDoc>, log1: seq<Id>, next1: Id)
    returns (posts': seq<TaskRequest>, consumed': seq<PollStep>, logged': seq<Id>)
    requires i < |flowActions| && |aes0| == i && |posts| == i
    requires Accounted(flowId, flowActions, actions, inputs, startedAt, firstPosted, firstScript, firstLog, firstExecutions,
      posts, consumed, logged, posted0, script0, aes0, outputs0, executions0, log0, next0)
    requires RanAction(flowId, inputs, ActionExecutionStatus.Running, startedAt, None, flowActions[i], actions, inputs,
      posted0, script0, aes0, outputs0, executions0, log0, next0, err, ae, doc,
      posted1, script1, aes1, outputs1, executions1, log1, next1)
    ensures Accounted(flowId, flowActions, actions, inputs, startedAt, firstPosted, firstScript, firstLog, firstExecutions,
      posts', consumed', logged', posted1, script1, aes1, outputs1, executions1, log1, next1)
    ensures err.None? ==> |aes1| == i + 1 && |posts'| == i + 1
    ensures |consumed'| == |consumed| + |script0| - |script1|
    ensures err.Some? ==> aes1 == aes0 && StoppedAt(flowActions, actions, |firstPosted|, i, err, |posts'|)
  {
    if flowActions[i] !in actions {
      return posts, consumed, logged;
    }
    posts', consumed', logged' := AfterPostedAction(flowId, flowActions, actions, inputs, startedAt, i,
        firstPosted, firstScript, firstLog, firstExecutions, posts, consumed, logged,
        posted0, script0, aes0, outputs0, executions0, log0, next0, err, ae, doc,
        posted1, script1, aes1, outputs1, executions1, log1, next1);
  }

  /** AfterRunAction once the action was found and its task posted. */
  lemma AfterPostedAction(
    flowId: Id, flowActions: seq<Id>, actions: map<Id, Action>, inputs: Dict, startedAt: Option<Time>, i: nat,
    firstPosted: seq<TaskRequest>, firstScript: seq<PollStep>, firstLog: seq<Id>, firstExecutions: map<Id, ExecutionDoc>,
    posts: seq<TaskRequest>, consumed: seq<PollStep>, logged: seq<Id>,
    posted0: seq<TaskRequest>, script0: seq<PollStep>, aes0: seq<ActionExecution>, outputs0: map<Id, Json>,
    executions0: map<Id, ExecutionDoc>, log0: seq<Id>, next0: Id,
    err: Option<FlowError>, ae: ActionExecution, doc: Id,
    posted1: seq<TaskRequest>, script1: seq<PollStep>, aes1: seq<ActionExecution>, outputs1: map<Id, Json>,
    executions1: map<Id, ExecutionDoc>, log1: seq<Id>, next1: Id)
    returns (posts': seq<TaskRequest>, consumed': seq<PollStep>, logged': seq<Id>)
    requires i < |flowActions| && |aes0| == i && |posts| == i && flowActions[i] in actions
    requires Accounted(flowId, flowActions, actions, inputs, startedAt, firstPosted, firstScript, firstLog, firstExecutions,
      posts, consumed, logged, posted0, script0, aes0, outputs0, executions0, log0, next0)
    requires RanAction(flowId, inputs, ActionExecutionStatus.Running, startedAt, None, flowActions[i], actions, inputs,
      posted0, script0, aes0, outputs0, executions0, log0, next0, err, ae, doc,
      posted1, script1, aes1, outputs1, executions1, log1, next1)
    ensures Accounted(flowId, flowActions, actions, inputs, startedAt, firstPosted, firstScript, firstLog, firstExecutions,
      posts', consumed', logged', posted1, script1, aes1, outputs1, executions1, log1, next1)
    ensures err.None? ==> |aes1| == i + 1 && |posts'| == i + 1
    ensures err.Some? ==>
      && aes1 == aes0 && |posts'| == i + 1
      && (err == Some(TaskTimedOut(|firstPosted| + i)) || err == Some(TaskUnfinished(|firstPosted| + i)))
  {
    var w := PollFrom(script0, 0, DefaultPollingInterval, DefaultTimeout, false);
    PollConsumesOneTerminal(script0, 0, DefaultPollingInterval, DefaultTimeout, false);
    var request := RequestFor(actions[flowActions[i]], inputs);
    posts', consumed' := posts + [request], consumed + script0[..w.polls];
    if w.outcome.Finished? {
      AccountStep(flowId, flowActions, actions, inputs, startedAt, firstPosted, firstScript, firstLog, firstExecutions,
        posts, consumed, logged, posted0, script0, aes0, outputs0, executions0, log0, next0,
        ae, w.outcome.result, w.polls, doc, next1);
      logged' := logged + [doc];
    } else {
      AccountStall(flowId, flowActions, actions, inputs, startedAt, firstPosted, firstScript, firstLog, firstExecutions,
        posts, consumed, logged, posted0, script0, aes0, outputs0, executions0, log0, next0, w.polls, next1);
      logged' := logged;
    }
  }

  /** A task posted whose wait consumed no terminal answer keeps the accounts. */
  lemma AccountStall(
    flowId: Id, flowActions: seq<Id>, actions: map<Id, Action>, inputs: Dict, startedAt: Option<Time>,
    firstPosted: seq<TaskRequest>, firstScript: seq<PollStep>, firstLog: seq<Id>, firstExecutions: map<Id, ExecutionDoc>,
    posts: seq<TaskRequest>, consumed: seq<PollStep>, logged: seq<Id>,
    posted0: seq<TaskRequest>, script0: seq<PollStep>, aes0: seq<ActionExecution>, outputs0: map<Id, Json>,
    executions0: map<Id, ExecutionDoc>, log0: seq<Id>, next0: Id, polls: nat, next1: Id)
    requires Accounted(flowId, flowActions, actions, inputs, startedAt, firstPosted, firstScript, firstLog, firstExecutions,
      posts, consumed, logged, posted0, script0, aes0, outputs0, executions0, log0, next0)
    requires |aes0| == |posts| < |flowActions| && flowActions[|aes0|] in actions
    requires polls <= |script0| && Terminals(script0[..polls]) == [] && next0 <= next1
    ensures var request := RequestFor(actions[flowActions[|aes0|]], inputs);
      Accounted(flowId, flowActions, actions, inputs, startedAt, firstPosted, firstScript, firstLog, firstExecutions,
        posts + [request], consumed + script0[..polls], logged,
        posted0 + [request], script0[polls..], aes0, outputs0, executions0, log0, next1)
  {
    var request := RequestFor(actions[flowActions[|aes0|]], inputs);
    LedgerStall(firstPosted, firstScript, firstLog, firstExecutions, posts, consumed, logged,
      posted0, script0, aes0, executions0, log0, next0, request, polls, next1);
    ProgressStall(flowId, flowActions, actions, inputs, startedAt, |firstPosted|,
      aes0, outputs0, posts, consumed, logged, executions0, script0[..polls]);
  }

  /** A task whose wait consumed the terminal answer `r`, recorded as `ae`
      and checkpointed as the new document `doc`, keeps the accounts. */
  lemma AccountStep(
    flowId: Id, flowActions: seq<Id>, actions: map<Id, Action>, inputs: Dict, startedAt: Option<Time>,
    firstPosted: seq<TaskRequest>, firstScript: seq<PollStep>, firstLog: seq<Id>, firstExecutions: map<Id, ExecutionDoc>,
    posts: seq<TaskRequest>, consumed: seq<PollStep>, logged: seq<Id>,
    posted0: seq<TaskRequest>, script0: seq<PollStep>, aes0: seq<ActionExecution>, outputs0: map<Id, Json>,
    executions0: map<Id, ExecutionDoc>, log0: seq<Id>, next0: Id,
    ae: ActionExecution, r: TaskResult, polls: nat, doc: Id, next1: Id)
    requires Accounted(flowId, flowActions, actions, inputs, startedAt, firstPosted, firstScript, firstLog, firstExecutions,
      posts, consumed, logged, posted0, script0, aes0, outputs0, executions0, log0, next0)
    requires |aes0| == |posts| < |flowActions| && flowActions[|aes0|] in actions
    requires polls <= |script0| && Terminals(script0[..polls]) == [r]
    requires RecordsAction(ae, flowActions[|aes0|], inputs, |posted0|, r)
    requires next0 == ae.id < next1 && doc !in executions0
    ensures var request := RequestFor(actions[flowActions[|aes0|]], inputs);
      Accounted(flowId, flowActions, actions, inputs, startedAt, firstPosted, firstScript, firstLog, firstExecutions,
        posts + [request], consumed + script0[..polls], logged + [doc],
        posted0 + [request], script0[polls..], aes0 + [ae], outputs0[ae.id := OutputOf(r)],
        executions0[doc := ExecutionDoc(flowId, inputs, aes0 + [ae], ActionExecutionStatus.Running, startedAt, None)],
        log0 + [doc], next1)
  {
    var request := RequestFor(actions[flowActions[|aes0|]], inputs);
    var d := ExecutionDoc(flowId, inputs, aes0 + [ae], ActionExecutionStatus.Running, startedAt, None);
    var executions1 := executions0[doc := d];
    LedgerStep(firstPosted, firstScript, firstLog, firstExecutions, posts, consumed, logged,
      posted0, script0, aes0, executions0, log0, next0, request, polls, ae, doc, d, next1);
    ProgressStep(flowId, flowActions, actions, inputs, startedAt, |firstPosted|,
      aes0, outputs0, posts, consumed, logged, executions0,
      ae, r, script0[..polls], doc, executions1);
  }

  /** Where a run that failed stopped: at the `n`-th action, either
      because it is not stored (before its task was posted) or because its
      task, the (firstTask + n)-th posted, did not finish. */
  predicate StoppedAt(flowActions: seq<Id>, actions: map<Id, Action>, firstTask: nat, n: nat, err: Option<FlowError>, posts: nat) {
    && n < |flowActions|
    && ((err == Some(ActionNotFound(flowActions[n])) && flowActions[n] !in actions && posts == n)
        || ((err == Some(TaskTimedOut(firstTask + n)) || err == Some(TaskUnfinished(firstTask + n))) && posts == n + 1))
  }

  /** How a run ends: the error it stops with (None when every action ran)
      and the number of remote answers it consumed. */
  datatype RunEnd = RunEnd(err: Option<FlowError>, consumed: nat)

  /** How execute_flow's loop over `flowActions` ends against the remote's
      answers `script`, the first task being the `firstTask`-th posted: an
      action that is not stored stops it, and so does a wait that does not
      finish; a finished wait hands the rest of the script to the next
      action. */
  function FlowOutcome(flowActions: seq<Id>, actions: map<Id, Action>, script: seq<PollStep>, firstTask: nat): (r: RunEnd)
    ensures r.consumed <= |script|
    decreases |flowActions|
  {
    if flowActions == [] then RunEnd(None, 0)
    else if flowActions[0] !in actions then RunEnd(Some(ActionNotFound(flowActions[0])), 0)
    else
      var w := PollFrom(script, 0, DefaultPollingInterval, DefaultTimeout, false);
      match w.outcome
      case TimedOut => RunEnd(Some(TaskTimedOut(firstTask)), w.polls)
      case Exhausted => RunEnd(Some(TaskUnfinished(firstTask)), w.polls)
      case Finished(_) =>
        var rest := FlowOutcome(flowActions[1..], actions, script[w.polls..], firstTask + 1);
        RunEnd(rest.err, w.polls + rest.consumed)
  }

  /** The loop after its first `i` actions ran, having consumed `done`
      answers and left `script`: the rest of the run decides the outcome. */
  ghost predicate OutcomeSoFar(flowActions: seq<Id>, actions: map<Id, Action>, firstScript: seq<PollStep>, firstTask: nat,
                               i: nat, done: nat, script: seq<PollStep>)
  {
    && i <= |flowActions|
    && var whole, rest := FlowOutcome(flowActions, actions, firstScript, firstTask),
                          FlowOutcome(flowActions[i..], actions, script, firstTask + i);
       whole.err == rest.err && whole.consumed == done + rest.consumed
  }

  lemma OutcomeAtStart(flowActions: seq<Id>, actions: map<Id, Action>, script: seq<PollStep>, firstTask: nat)
    ensures OutcomeSoFar(flowActions, actions, script, firstTask, 0, 0, script)
  {
    assert flowActions[0..] == flowActions;
  }

  lemma OutcomeAtEnd(flowActions: seq<Id>, actions: map<Id, Action>, firstScript: seq<PollStep>, firstTask: nat,
                     done: nat, script: seq<PollStep>)
    requires OutcomeSoFar(flowActions, actions, firstScript, firstTask, |flowActions|, done, script)
    ensures FlowOutcome(flowActions, actions, firstScript, firstTask) == RunEnd(None, done)
  {
    assert flowActions[|flowActions|..] == [];
  }

  /** One action of the loop, as RanAction describes it: an error ends the
      run with the outcome FlowOutcome predicts; otherwise the rest of the
      run goes on from the answers left. */
  lemma OutcomeStep(flowActions: seq<Id>, actions: map<Id, Action>, firstScript: seq<PollStep>, firstTask: nat,
                    i: nat, done: nat, script0: seq<PollStep>, err: Option<FlowError>, script1: seq<PollStep>)
    requires i < |flowActions| && OutcomeSoFar(flowActions, actions, firstScript, firstTask, i, done, script0)
    requires flowActions[i] !in actions ==> err == Some(ActionNotFound(flowActions[i])) && script1 == script0
    requires flowActions[i] in actions ==>
      var w := PollFrom(script0, 0, DefaultPollingInterval, DefaultTimeout, false);
      && script1 == script0[w.polls..]
      && (w.outcome.TimedOut? ==> err == Some(TaskTimedOut(firstTask + i)))
      && (w.outcome.Exhausted? ==> err == Some(TaskUnfinished(firstTask + i)))
      && (w.outcome.Finished? ==> err == None)
    ensures |script1| <= |script0|
    ensures err.None? ==> OutcomeSoFar(flowActions, actions, firstScript, firstTask, i + 1, done + |script0| - |script1|, script1)
    ensures err.Some? ==> FlowOutcome(flowActions, actions, firstScript, firstTask) == RunEnd(err, done + |script0| - |script1|)
  {
    assert flowActions[i..][1..] == flowActions[i + 1..];
  }

  /** When every answer of the remote is terminal, every stored action of
      the flow runs, each after exactly one status request. */
  lemma {:induction false} TerminalAnswersComplete(flowActions: seq<Id>, actions: map<Id, Action>, script: seq<PollStep>, firstTask: nat)
    requires AllStored(flowActions, actions) && |flowActions| <= |script|
    requires forall k :: 0 <= k < |script| ==> IsTerminal(script[k].result.status)
    ensures FlowOutcome(flowActions, actions, script, firstTask) == RunEnd(None, |flowActions|)
    decreases |flowActions|
  {
    if flowActions != [] {
      assert flowActions[0] in actions;
      forall k | 0 <= k < |flowActions[1..]|
        ensures flowActions[1..][k] in actions
      {
        assert flowActions[1..][k] == flowActions[k + 1];
      }
      forall k | 0 <= k < |script[1..]|
        ensures IsTerminal(script[1..][k].result.status)
      {
        assert script[1..][k] == script[k + 1];
      }
      TerminalAnswersComplete(flowActions[1..], actions, script[1..], firstTask + 1);
    }
  }

  /** A first answer that is not terminal and arrives, with the sleep after
      it, later than the default limit makes the first stored action's task
      time out after that one request. */
  lemma SlowFirstAnswerTimesOut(flowActions: seq<Id>, actions: map<Id, Action>, script: seq<PollStep>, firstTask: nat)
    requires flowActions != [] && flowActions[0] in actions
    requires script != [] && !IsTerminal(script[0].result.status)
    requires script[0].latency + DefaultPollingInterval > DefaultTimeout
    ensures FlowOutcome(flowActions, actions, script, firstTask) == RunEnd(Some(TaskTimedOut(firstTask)), 1)
  {
    var e := script[0].latency + DefaultPollingInterval;
    assert PollFrom(script[1..], e, DefaultPollingInterval, DefaultTimeout, false) == Wait(TimedOut, 0, e);
  }

  /** How a run of a found flow's actions `flowActions` ends, for the
      execution with fields `aes`, `outputs`, `status` and `completedAt`,
      against the remote's answers `firstScript`: whether it fails, with
      which error and after how many answers, is what FlowOutcome says;
      Progress holds for its executions and all checkpoints; on success
      every action ran, the execution is COMPLETED and exactly one more
      document, the COMPLETED one, follows the N checkpoints; on an error
      the run stopped, still RUNNING, at the action or task the error
      names, with only the checkpoints of the actions before it. */
  ghost predicate FlowRan(
    flowId: Id, flowActions: seq<Id>, actions: map<Id, Action>, inputs: Dict, startedAt: Option<Time>,
    p0: nat, firstScript: seq<PollStep>,
    aes: seq<ActionExecution>, outputs: map<Id, Json>, status: ActionExecutionStatus, completedAt: Option<Time>,
    posts: seq<TaskRequest>, consumed: seq<PollStep>, logged: seq<Id>, executions: map<Id, ExecutionDoc>, err: Option<FlowError>)
  {
    var n := |aes|;
    && n <= |logged|
    && FlowOutcome(flowActions, actions, firstScript, p0) == RunEnd(err, |consumed|)
    && Progress(flowId, flowActions, actions, inputs, startedAt, p0, aes, outputs, posts, consumed, logged[..n], executions)
    && (err.None? ==>
          && n == |flowActions| && status == ActionExecutionStatus.Completed && completedAt.Some?
          && |posts| == n && |logged| == n + 1 && logged[n] in executions
          && executions[logged[n]] == ExecutionDoc(flowId, inputs, aes, ActionExecutionStatus.Completed, startedAt, completedAt))
    && (err.Some? ==>
          && status == ActionExecutionStatus.Running && completedAt == None
          && |logged| == n
          && StoppedAt(flowActions, actions, p0, n, err, |posts|))
  }

  /** The last store of a finished execution adds one document under a
      fresh id: Progress and every earlier document survive it. */
  lemma AfterFinalStore(
    flowId: Id, flowActions: seq<Id>, actions: map<Id, Action>, inputs: Dict, startedAt: Option<Time>, firstTask: nat,
    aes: seq<ActionExecution>, outputs: map<Id, Json>, posted: seq<TaskRequest>, consumed: seq<PollStep>,
    log: seq<Id>, executions: map<Id, ExecutionDoc>, firstExecutions: map<Id, ExecutionDoc>, doc: Id, d: ExecutionDoc)
    requires Progress(flowId, flowActions, actions, inputs, startedAt, firstTask, aes, outputs, posted, consumed, log, executions)
    requires forall id :: id in firstExecutions ==> id in executions && executions[id] == firstExecutions[id]
    requires doc !in executions
    ensures (log + [doc])[..|aes|] == log
    ensures Progress(flowId, flowActions, actions, inputs, startedAt, firstTask, aes, outputs, posted, consumed,
      (log + [doc])[..|aes|], executions[doc := d])
    ensures forall id :: id in firstExecutions ==> id in executions[doc := d] && executions[doc := d][id] == firstExecutions[id]
  {
    TakeAppend(log, [doc]);
  }

  lemma AppendAssociates<T>(a: seq<T>, b: seq<T>, c: seq<T>)
    ensures (a + b) + c == a + (b + c)
  {
  }

  lemma TakeAppend<T>(a: seq<T>, b: seq<T>)
    ensures (a + b)[..|a|] == a
  {
  }

  lemma SplitAt<T>(s: seq<T>, n: nat)
    requires n <= |s|
    ensures s == s[..n] + s[n..]
  {
  }

  /** The required_inputs of the actions `ids`, in order. */
  function RequiredOf(ids: seq<Id>, actions: map<Id, Action>): (reqs: seq<seq<string>>)
    requires forall k :: 0 <= k < |ids| ==> ids[k] in actions
    ensures |reqs| == |ids|
    ensures forall k :: 0 <= k < |ids| ==> reqs[k] == actions[ids[k]].requiredInputs
    decreases |ids|
  {
    if ids == [] then [] else RequiredOf(ids[..|ids| - 1], actions) + [actions[ids[|ids| - 1]].requiredInputs]
  }

  /** Every id of `ids` names a stored action. */
  predicate AllStored(ids: seq<Id>, actions: map<Id, Action>) {
    forall k :: 0 <= k < |ids| ==> ids[k] in actions
  }

  /** `id` is the first id of `ids` without a stored action. */
  predicate FirstUnstored(ids: seq<Id>, actions: map<Id, Action>, id: Id) {
    exists k :: 0 <= k < |ids| && ids[k] == id && id !in actions && AllStored(ids[..k], actions)
  }

  /** An input is reported missing for a flow exactly when the caller did
      not provide it and one of the flow's actions requires it. */
  lemma FlowMissingInputs(ids: seq<Id>, actions: map<Id, Action>, provided: set<string>, x: string)
    requires AllStored(ids, actions)
    ensures x in MissingInputs(RequiredOf(ids, actions), provided) <==>
      x !in provided && exists k :: 0 <= k < |ids| && x in actions[ids[k]].requiredInputs
  {
    var reqs := RequiredOf(ids, actions);
    MissingInputsMembership(reqs, provided, x);
    if exists k :: 0 <= k < |ids| && x in actions[ids[k]].requiredInputs {
      var k :| 0 <= k < |ids| && x in actions[ids[k]].requiredInputs;
      assert x in reqs[k];
    }
  }

  /** One more action visited by check_missing_inputs adds its required
      inputs that were not provided. */
  lemma MissingInputsStep(ids: seq<Id>, i: nat, actions: map<Id, Action>, provided: set<string>)
    requires i < |ids| && AllStored(ids[..i], actions) && ids[i] in actions
    ensures AllStored(ids[..i + 1], actions)
    ensures MissingInputs(RequiredOf(ids[..i + 1], actions), provided)
      == MissingInputs(RequiredOf(ids[..i], actions), provided) + (Elems(actions[ids[i]].requiredInputs) - provided)
  {
    assert ids[..i + 1][..i] == ids[..i];
    var reqs := RequiredOf(ids[..i], actions);
    assert RequiredOf(ids[..i + 1], actions) == reqs + [actions[ids[i]].requiredInputs];
    assert (reqs + [actions[ids[i]].requiredInputs])[..i] == reqs;
  }

  /** How the input checks at the end of create_flow_from_prompt leave the
      flow `flow` (whose actions are `flow.actions`): an unstored action is
      an error; otherwise the caller's inputs (or {}) are checked, and if
      something is missing the extracted inputs are merged in (into the
      caller's own dict when it gave one) and checked again. */
  ghost predicate InputsSettled(flow: FlowRecord, actions: map<Id, Action>, initialInputs: Option<Dict>, extracted: Dict,
                                r: Result<FlowRecord, FlowError>, callerInputs: Option<Dict>)
  {
    var ids := flow.actions;
    && (!AllStored(ids, actions) ==>
          && r.Failure? && r.error.ActionNotFound? && FirstUnstored(ids, actions, r.error.actionId)
          && callerInputs == initialInputs)
    && (AllStored(ids, actions) ==>
          var reqs := RequiredOf(ids, actions);
          var provided := OrEmpty(initialInputs);
          var merged := provided + extracted;
          && (MissingInputs(reqs, provided.Keys) == {} ==> r == Success(flow) && callerInputs == initialInputs)
          && (MissingInputs(reqs, provided.Keys) != {} ==>
                && callerInputs == (if initialInputs.Some? then Some(merged) else None)
                && (MissingInputs(reqs, merged.Keys) == {} ==> r == Success(flow))
                && (MissingInputs(reqs, merged.Keys) != {} ==> r == Failure(MissingRequiredInputs(MissingInputs(reqs, merged.Keys))))))
  }

  /** The FlowExecution class of core.py:395. */
  class FlowExecution {
    const id: Id
    const flowId: Id
    const initialInputs: Dict
    var actionExecutions: seq<ActionExecution>
    var status: ActionExecutionStatus
    var startedAt: Option<Time>
    var completedAt: Option<Time>
    var outputs: Option<map<Id, Json>>

    constructor (flowId: Id, initialInputs: Dict, uuids: Uuid)
      modifies uuids
      ensures id == old(uuids.next) && uuids.next == old(uuids.next) + 1
      ensures this.flowId == flowId && this.initialInputs == initialInputs
      ensures actionExecutions == [] && status == Pending
      ensures startedAt == None && completedAt == None && outputs == None
    {
      var newId := uuids.New();
      id := newId;
      this.flowId := flowId;
      this.initialInputs := initialInputs;
      actionExecutions := [];
      status := Pending;
      startedAt, completedAt, outputs := None, None, None;
    }

    function ToDict(): FlowExecutionDict
      reads this
    {
      FlowExecutionDict(id, flowId, initialInputs, actionExecutions, status, startedAt, completedAt, outputs)
    }
  }

  class WebsiteFlowManager {
    const db: MarqoDatabase
    const blockManager: WebsiteBlockManager
    const skyvern: SkyvernService
    const uuids: Uuid
    const clock: Clock

    ghost predicate Valid()
      reads this, db, uuids
    {
      && db.uuids == uuids
      && db.Valid()
      && blockManager.db == db
      && db.clock == clock
      && skyvern.clock == clock
    }

    constructor (db: MarqoDatabase, blockManager: WebsiteBlockManager, skyvern: SkyvernService)
      requires db.Valid() && blockManager.db == db && skyvern.clock == db.clock
      ensures Valid()
      ensures this.db == db && this.blockManager == blockManager && this.skyvern == skyvern
    {
      this.db := db;
      this.blockManager := blockManager;
      this.skyvern := skyvern;
      this.uuids := db.uuids;
      this.clock := db.clock;
    }

    /** One pass of the loop of execute_flow for the action `actionId`:
        look the action up, dispatch its task with `taskInputs`, await it,
        record the execution, index its output and checkpoint. */
    method RunAction(fe: FlowExecution, actionId: Id, taskInputs: Dict)
      returns (err: Option<FlowError>, ghost ae: ActionExecution, ghost doc: Id)
      requires Valid() && fe.outputs.Some?
      modifies fe, db, uuids, clock, skyvern
      ensures Valid()
      ensures fe.status == old(fe.status) && fe.startedAt == old(fe.startedAt) && fe.completedAt == old(fe.completedAt)
      ensures fe.outputs.Some?
      ensures db.blocks == old(db.blocks) && db.actions == old(db.actions) && db.flows == old(db.flows)
      ensures RanAction(fe.flowId, fe.initialInputs, fe.status, fe.startedAt, fe.completedAt, actionId, db.actions, taskInputs,
        old(skyvern.posted), old(skyvern.script), old(fe.actionExecutions), old(fe.outputs).value,
        old(db.executions), old(db.executionLog), old(uuids.next), err, ae, doc,
        skyvern.posted, skyvern.script, fe.actionExecutions, fe.outputs.value, db.executions, db.executionLog, uuids.next)
    {
      ae, doc := NewActionExecution(0, actionId, taskInputs), 0;
      var action := blockManager.GetAction(actionId);
      if action.None? {
        return Some(ActionNotFound(actionId)), ae, doc;
      }
      var a := action.value;
      var task := skyvern.CreateTask(a.url, a.navigationGoal, a.dataExtractionGoal, Some(taskInputs));
      var aeId := uuids.New();
      var exec := NewActionExecution(aeId, actionId, taskInputs);
      exec := exec.(startedAt := Some(clock.now), status := ActionExecutionStatus.Running, skyvernTaskId := Some(task.taskId));
      var outcome := skyvern.WaitForCompletion(task.taskId, DefaultPollingInterval, DefaultTimeout);
      match outcome
      case TimedOut =>
        return Some(TaskTimedOut(task.taskId)), ae, doc;
      case Exhausted =>
        return Some(TaskUnfinished(task.taskId)), ae, doc;
      case Finished(result) =>
        exec := exec.(completedAt := Some(clock.now), status := ActionExecutionStatus.Completed);
        var output := OutputOf(result);
        exec := exec.(output := Some(output));
        fe.outputs := Some(fe.outputs.value[exec.id := output]);
        fe.actionExecutions := fe.actionExecutions + [exec];
        ae := exec;
        doc := db.StoreExecution(fe.ToDict());
        err := None;
    }

    /** The loop of execute_flow: run the actions `flowActions` in order,
        each with the execution's initial inputs (accumulated_outputs is
        never filled), and stop at the first that fails. */
    method RunActions(fe: FlowExecution, flowActions: seq<Id>)
      returns (err: Option<FlowError>, ghost posts: seq<TaskRequest>, ghost consumed: seq<PollStep>, ghost logged: seq<Id>)
      requires Valid()
      requires fe.actionExecutions == [] && fe.outputs == Some(map[])
      requires fe.status == ActionExecutionStatus.Running && fe.completedAt == None
      modifies fe, db, uuids, clock, skyvern
      ensures Valid() && fe.outputs.Some?
      ensures fe.status == old(fe.status) && fe.startedAt == old(fe.startedAt) && fe.completedAt == old(fe.completedAt)
      ensures db.blocks == old(db.blocks) && db.actions == old(db.actions) && db.flows == old(db.flows)
      ensures forall id :: id in old(db.executions) ==> id in db.executions && db.executions[id] == old(db.executions)[id]
      ensures skyvern.posted == old(skyvern.posted) + posts
      ensures old(skyvern.script) == consumed + skyvern.script
      ensures db.executionLog == old(db.executionLog) + logged && AllNew(logged, old(db.executions))
      ensures Progress(fe.flowId, flowActions, db.actions, fe.initialInputs, fe.startedAt, |old(skyvern.posted)|,
        fe.actionExecutions, fe.outputs.value, posts, consumed, logged, db.executions)
      ensures FlowOutcome(flowActions, db.actions, old(skyvern.script), |old(skyvern.posted)|) == RunEnd(err, |consumed|)
      ensures var n := |fe.actionExecutions|;
        && (err.None? ==> n == |flowActions| && |posts| == n)
        && (err.Some? ==> StoppedAt(flowActions, db.actions, |old(skyvern.posted)|, n, err, |posts|))
    {
      err := None;
      var currentInputs := fe.initialInputs;
      var accumulatedOutputs: Dict := map[];
      ghost var s0 := skyvern.script;
      posts, consumed, logged := [], [], [];
      AccountedAtStart(fe.flowId, flowActions, db.actions, fe.initialInputs, fe.startedAt,
        skyvern.posted, skyvern.script, db.executions, db.executionLog, uuids.next);
      OutcomeAtStart(flowActions, db.actions, s0, |skyvern.posted|);
      var i := 0;
      while i < |flowActions|
        invariant 0 <= i <= |flowActions| && |fe.actionExecutions| == i && |posts| == i && err.None?
        invariant Valid() && fe.outputs.Some?
        invariant fe.status == old(fe.status) && fe.startedAt == old(fe.startedAt) && fe.completedAt == old(fe.completedAt)
        invariant db.blocks == old(db.blocks) && db.actions == old(db.actions) && db.flows == old(db.flows)
        invariant Accounted(fe.flowId, flowActions, db.actions, fe.initialInputs, fe.startedAt,
          old(skyvern.posted), s0, old(db.executionLog), old(db.executions), posts, consumed, logged,
          skyvern.posted, skyvern.script, fe.actionExecutions, fe.outputs.value, db.executions, db.executionLog, uuids.next)
        invariant OutcomeSoFar(flowActions, db.actions, s0, |old(skyvern.posted)|, i, |consumed|, skyvern.script)
      {
        var taskInputs := currentInputs;
        if accumulatedOutputs != map[] {
          taskInputs := taskInputs + accumulatedOutputs;
        }
        assert taskInputs == fe.initialInputs;
        ghost var posted0, script0, aes0, outputs0 := skyvern.posted, skyvern.script, fe.actionExecutions, fe.outputs.value;
        ghost var executions0, log0, next0 := db.executions, db.executionLog, uuids.next;
        ghost var ae, doc;
        err, ae, doc := RunAction(fe, flowActions[i], taskInputs);
        posts, consumed, logged := AfterRunAction(fe.flowId, flowActions, db.actions, fe.initialInputs, fe.startedAt, i,
          old(skyvern.posted), s0, old(db.executionLog), old(db.executions),
          posts, consumed, logged,
          posted0, script0, aes0, outputs0, executions0, log0, next0,
          err, ae, doc,
          skyvern.posted, skyvern.script, fe.actionExecutions, fe.outputs.value, db.executions, db.executionLog, uuids.next);
        if err.Some? {
          LoggedAreNew(old(db.executions), old(db.executionLog), logged);
          return;
        }
        i := i + 1;
      }
      OutcomeAtEnd(flowActions, db.actions, s0, |old(skyvern.posted)|, |consumed|, skyvern.script);
      LoggedAreNew(old(db.executions), old(db.executionLog), logged);
    }

    /** The end of execute_flow: stamp the execution COMPLETED and store
        it once more. */
    method Finish(fe: FlowExecution) returns (doc: Id)
      requires Valid()
      modifies fe, db, uuids
      ensures Valid()
      ensures fe.status == ActionExecutionStatus.Completed && fe.completedAt == Some(clock.now)
      ensures fe.actionExecutions == old(fe.actionExecutions) && fe.outputs == old(fe.outputs) && fe.startedAt == old(fe.startedAt)
      ensures doc !in old(db.executions)
      ensures db.executions == old(db.executions)[doc :=
        ExecutionDoc(fe.flowId, fe.initialInputs, fe.actionExecutions, ActionExecutionStatus.Completed, fe.startedAt, fe.completedAt)]
      ensures db.executionLog == old(db.executionLog) + [doc]
      ensures db.blocks == old(db.blocks) && db.actions == old(db.actions) && db.flows == old(db.flows)
    {
      fe.completedAt := Some(clock.now);
      fe.status := ActionExecutionStatus.Completed;
      doc := db.StoreExecution(fe.ToDict());
    }

    /** The run of RunFlow on the actions `flowActions`: the loop run by
        RunActions, then, when it succeeds, the final COMPLETED store. */
    method RunFlow(fe: FlowExecution, flowActions: seq<Id>)
      returns (err: Option<FlowError>, ghost posts: seq<TaskRequest>, ghost consumed: seq<PollStep>, ghost logged: seq<Id>)
      requires Valid()
      requires fe.actionExecutions == [] && fe.outputs == Some(map[])
      requires fe.status == ActionExecutionStatus.Running && fe.completedAt == None
      modifies fe, db, uuids, clock, skyvern
      ensures Valid() && fe.outputs.Some? && fe.startedAt == old(fe.startedAt)
      ensures db.blocks == old(db.blocks) && db.actions == old(db.actions) && db.flows == old(db.flows)
      ensures forall id :: id in old(db.executions) ==> id in db.executions && db.executions[id] == old(db.executions)[id]
      ensures skyvern.posted == old(skyvern.posted) + posts
      ensures old(skyvern.script) == consumed + skyvern.script
      ensures db.executionLog == old(db.executionLog) + logged && AllNew(logged, old(db.executions))
      ensures FlowRan(fe.flowId, flowActions, db.actions, fe.initialInputs, fe.startedAt, |old(skyvern.posted)|, old(skyvern.script),
        fe.actionExecutions, fe.outputs.value, fe.status, fe.completedAt, posts, consumed, logged, db.executions, err)
    {
      err, posts, consumed, logged := RunActions(fe, flowActions);
      if err.Some? {
        assert logged[..|fe.actionExecutions|] == logged;
        return;
      }
      ghost var executions0 := db.executions;
      var doc := Finish(fe);
      AfterFinalStore(fe.flowId, flowActions, db.actions, fe.initialInputs, fe.startedAt, |old(skyvern.posted)|,
        fe.actionExecutions, fe.outputs.value, posts, consumed, logged, executions0, old(db.executions),
        doc, ExecutionDoc(fe.flowId, fe.initialInputs, fe.actionExecutions, ActionExecutionStatus.Completed, fe.startedAt, fe.completedAt));
      AppendAssociates(old(db.executionLog), logged, [doc]);
      logged := logged + [doc];
      LoggedAreNew(old(db.executions), old(db.executionLog), logged);
    }

    /** execute_flow: a fresh execution, RUNNING from the start, runs the
        flow's actions, each appended execution checkpointed, and one last
        store follows the end (FlowRan). The in-memory execution is returned
        on failure too, so that the contract can speak of what was persisted
        before the error. */
    method ExecuteFlow(flowId: Id, initialInputs: Option<Dict>)
      returns (fe: FlowExecution, err: Option<FlowError>,
               ghost posts: seq<TaskRequest>, ghost consumed: seq<PollStep>, ghost logged: seq<Id>)
      requires Valid()
      modifies db, uuids, clock, skyvern
      ensures Valid() && fresh(fe)
      ensures fe.flowId == flowId && fe.initialInputs == OrEmpty(initialInputs)
      ensures fe.startedAt == Some(old(clock.now)) && fe.outputs.Some?
      ensures db.blocks == old(db.blocks) && db.actions == old(db.actions) && db.flows == old(db.flows)
      ensures forall id :: id in old(db.executions) ==> id in db.executions && db.executions[id] == old(db.executions)[id]
      ensures skyvern.posted == old(skyvern.posted) + posts
      ensures old(skyvern.script) == consumed + skyvern.script
      ensures db.executionLog == old(db.executionLog) + logged && AllNew(logged, old(db.executions))
      ensures flowId !in db.flows ==>
        && err == Some(FlowNotFound(flowId)) && fe.actionExecutions == [] && fe.status == ActionExecutionStatus.Running
        && posts == [] && consumed == [] && logged == [] && db.executions == old(db.executions)
      ensures flowId in db.flows ==>
        FlowRan(flowId, db.flows[flowId].actions, db.actions, fe.initialInputs, fe.startedAt, |old(skyvern.posted)|, old(skyvern.script),
          fe.actionExecutions, fe.outputs.value, fe.status, fe.completedAt, posts, consumed, logged, db.executions, err)
    {
      fe := new FlowExecution(flowId, OrEmpty(initialInputs), uuids);
      fe.startedAt := Some(clock.now);
      fe.status := ActionExecutionStatus.Running;
      fe.outputs := Some(map[]);

      var flow := db.GetFlow(flowId);
      if flow.None? {
        return fe, Some(FlowNotFound(flowId)), [], [], [];
      }
      err, posts, consumed, logged := RunFlow(fe, flow.value.actions);
    }

    /** continue_flow_execution: mark the stored flow RUNNING and run it
        again from its first action, with only the additional inputs. */
    method ContinueFlowExecution(flowId: Id, additionalInputs: Dict)
      returns (fe: FlowExecution?, err: Option<FlowError>,
               ghost posts: seq<TaskRequest>, ghost consumed: seq<PollStep>, ghost logged: seq<Id>)
      requires Valid()
      modifies db, uuids, clock, skyvern
      ensures Valid()
      ensures db.blocks == old(db.blocks) && db.actions == old(db.actions)
      ensures forall id :: id in old(db.executions) ==> id in db.executions && db.executions[id] == old(db.executions)[id]
      ensures flowId !in old(db.flows) ==>
        && fe == null && err == Some(FlowNotFound(flowId))
        && db.flows == old(db.flows) && db.executions == old(db.executions) && db.executionLog == old(db.executionLog)
        && skyvern.posted == old(skyvern.posted) && skyvern.script == old(skyvern.script)
      ensures flowId in old(db.flows) ==>
        && fe != null && fresh(fe) && fe.outputs.Some?
        && fe.flowId == flowId && fe.initialInputs == additionalInputs
        && db.flows == old(db.flows)[flowId := old(db.flows)[flowId].(status := Some(ActionExecutionStatus.Running))]
        && skyvern.posted == old(skyvern.posted) + posts
        && old(skyvern.script) == consumed + skyvern.script
        && db.executionLog == old(db.executionLog) + logged && AllNew(logged, old(db.executions))
        && FlowRan(flowId, old(db.flows)[flowId].actions, db.actions, additionalInputs, fe.startedAt, |old(skyvern.posted)|, old(skyvern.script),
             fe.actionExecutions, fe.outputs.value, fe.status, fe.completedAt, posts, consumed, logged, db.executions, err)
    {
      var flow := db.GetFlow(flowId);
      if flow.None? {
        return null, Some(FlowNotFound(flowId)), [], [], [];
      }
      db.SetFlowStatus(flowId, ActionExecutionStatus.Running);
      var run: FlowExecution;
      run, err, posts, consumed, logged := ExecuteFlow(flowId, Some(additionalInputs));
      fe := run;
    }

    /** check_missing_inputs: the union, over the flow's actions, of the
        required inputs not among the provided keys; a missing flow or a
        missing action is an error. */
    method CheckMissingInputs(flowId: Id, provided: Dict) returns (r: Result<set<string>, FlowError>)
      requires Valid()
      ensures flowId !in db.flows ==> r == Failure(FlowNotFound(flowId))
      ensures flowId in db.flows ==>
        var ids := db.flows[flowId].actions;
        && (r.Success? <==> AllStored(ids, db.actions))
        && (r.Success? ==> r.value == MissingInputs(RequiredOf(ids, db.actions), provided.Keys))
        && (r.Failure? ==> r.error.ActionNotFound? && FirstUnstored(ids, db.actions, r.error.actionId))
    {
      var flow := db.GetFlow(flowId);
      if flow.None? {
        return Failure(FlowNotFound(flowId));
      }
      var ids := flow.value.actions;
      var missing: set<string> := {};
      var i := 0;
      while i < |ids|
        invariant 0 <= i <= |ids|
        invariant AllStored(ids[..i], db.actions)
        invariant missing == MissingInputs(RequiredOf(ids[..i], db.actions), provided.Keys)
      {
        var action := blockManager.GetAction(ids[i]);
        if action.None? {
          return Failure(ActionNotFound(ids[i]));
        }
        MissingInputsStep(ids, i, db.actions, provided.Keys);
        missing := missing + (Elems(action.value.requiredInputs) - provided.Keys);
        i := i + 1;
      }
      assert ids[..i] == ids;
      return Success(missing);
    }

    /** The branch both planning phases share for a url without a block:
        create_block("Block for " + name, url) and take the block's first
        action, which is missing when nothing was suggested for it. */
    method CreateBlockFor(c: Candidate) returns (first: Option<Id>)
      requires Valid()
      modifies db, uuids
      ensures Valid() && uuids.next == old(uuids.next) + 1 + |c.lookup.suggestions|
      ensures Stores(db.blocks, db.actions) == WithNewBlock(Stores(old(db.blocks), old(db.actions)), old(uuids.next), c, clock.now)
      ensures first == if c.lookup.suggestions == [] then None else Some(old(uuids.next) + 1)
      ensures db.flows == old(db.flows) && db.executions == old(db.executions) && db.executionLog == old(db.executionLog)
    {
      var block := blockManager.CreateBlock("Block for " + c.plan.name, c.plan.url, c.lookup.suggestions);
      if |block.actions| == 0 {
        return None;
      }
      var action := blockManager.GetAction(block.actions[0]);
      return Some(block.actions[0]);
    }

    /** The resolve-or-create loop of create_flow_from_prompt: the top
        action hit of a url with a block is reused, an entry whose text
        search is empty is skipped, and a url without a block gets a new
        block whose first action is used. */
    method ResolveActions(cands: seq<Candidate>) returns (r: Result<seq<Id>, PlanError>)
      requires Valid()
      modifies db, uuids
      ensures Valid() && old(uuids.next) <= uuids.next
      ensures var p := ResolvePlan(cands, old(uuids.next));
        && (r.Success? <==> p.Success?)
        && (r.Success? ==> r.value == p.value.ids && uuids.next == p.value.next)
        && (r.Failure? ==> r.error == p.error)
      ensures Stores(db.blocks, db.actions) == ResolveStores(cands, old(uuids.next), clock.now, Stores(old(db.blocks), old(db.actions)))
      ensures forall id :: id in old(db.actions) ==> id in db.actions && db.actions[id] == old(db.actions)[id]
      ensures db.flows == old(db.flows) && db.executions == old(db.executions) && db.executionLog == old(db.executionLog)
    {
      ghost var start, s0, now := uuids.next, Stores(db.blocks, db.actions), clock.now;
      ghost var next, st := start, s0;
      var configs: seq<Id> := [];
      var i := 0;
      assert cands[0..] == cands;
      ThenNothing(ResolvePlan(cands, uuids.next));
      while i < |cands|
        invariant 0 <= i <= |cands|
        invariant Valid() && old(uuids.next) <= uuids.next && clock.now == now
        invariant uuids.next == next && Stores(db.blocks, db.actions) == st
        invariant ResolvedSoFar(cands, start, now, s0, i, configs, next, st)
        invariant db.flows == old(db.flows) && db.executions == old(db.executions) && db.executionLog == old(db.executionLog)
      {
        var c := cands[i];
        var l := c.lookup;
        if l.blockHits != [] {
          var found := if l.actionHits != [] then [l.actionHits[0]] else [];
          ResolvedReuse(cands, start, now, s0, i, configs, next, st);
          configs := configs + found;
        } else {
          ghost var st' := WithNewBlock(st, next, c, now);
          var first := CreateBlockFor(c);
          if first.None? {
            ResolvedCreateFails(cands, start, now, s0, i, configs, next, st);
            return Failure(NoSuggestedAction(c.plan.url));
          }
          ghost var configs0, next0, st0 := configs, next, st;
          configs := configs + [first.value];
          next, st := next + 1 + |l.suggestions|, st';
          ResolvedCreate(cands, start, now, s0, i, configs0, next0, st0, configs, next, st);
        }
        i := i + 1;
      }
      assert cands[i..] == [];
      return Success(configs);
    }

    /** The sufficiency loop of create_flow_from_prompt: each missing
        capability becomes a new action, stored under the top block hit for
        its url (with an empty output schema), or the first action of a new
        block. */
    method AddMissingCapabilities(caps: seq<Candidate>) returns (r: Result<seq<Id>, PlanError>)
      requires Valid()
      modifies db, uuids
      ensures Valid() && old(uuids.next) <= uuids.next
      ensures var p := AddCapabilities(caps, old(uuids.next));
        && (r.Success? <==> p.Success?)
        && (r.Success? ==> r.value == p.value.ids && uuids.next == p.value.next)
        && (r.Failure? ==> r.error == p.error)
      ensures Stores(db.blocks, db.actions) == AddStores(caps, old(uuids.next), clock.now, Stores(old(db.blocks), old(db.actions)))
      ensures forall id :: id in old(db.actions) ==> id in db.actions && db.actions[id] == old(db.actions)[id]
      ensures db.flows == old(db.flows) && db.executions == old(db.executions) && db.executionLog == old(db.executionLog)
    {
      ghost var start, s0, now := uuids.next, Stores(db.blocks, db.actions), clock.now;
      ghost var next, st := start, s0;
      var configs: seq<Id> := [];
      var i := 0;
      assert caps[0..] == caps;
      ThenNothing(AddCapabilities(caps, uuids.next));
      while i < |caps|
        invariant 0 <= i <= |caps|
        invariant Valid() && old(uuids.next) <= uuids.next && clock.now == now
        invariant uuids.next == next && Stores(db.blocks, db.actions) == st
        invariant AddedSoFar(caps, start, now, s0, i, configs, next, st)
        invariant db.flows == old(db.flows) && db.executions == old(db.executions) && db.executionLog == old(db.executionLog)
      {
        var c := caps[i];
        var l := c.lookup;
        if l.blockHits != [] {
          ghost var configs0, st0 := configs, st;
          var id := db.StoreAction(ActionData(l.blockHits[0], c.plan.name, c.plan.navigationGoal,
            c.plan.dataExtractionGoal, c.plan.requiredInputs, JObject(map[]), c.plan.url));
          ghost var st' := Stores(st.blocks, st.actions[next := CapabilityAction(c, now)]);
          assert Stores(db.blocks, db.actions) == st';
          var action := blockManager.GetAction(id);
          configs := configs + [id];
          st := st';
          AddedUnderHit(caps, start, now, s0, i, configs0, next, st0, configs, st);
          next := next + 1;
        } else {
          ghost var st' := WithNewBlock(st, next, c, now);
          var first := CreateBlockFor(c);
          if first.None? {
            AddedCreateFails(caps, start, now, s0, i, configs, next, st);
            return Failure(NoSuggestedAction(c.plan.url));
          }
          ghost var configs0, next0, st0 := configs, next, st;
          configs := configs + [first.value];
          next, st := next + 1 + |l.suggestions|, st';
          AddedCreate(caps, start, now, s0, i, configs0, next0, st0, configs, next, st);
        }
        i := i + 1;
      }
      assert caps[i..] == [];
      return Success(configs);
    }

    /** The input checks at the end of create_flow_from_prompt for the
        stored flow `flow`. The flow is returned exactly when all its
        actions are stored and every input they require was provided or
        extracted. */
    method SettleInputs(flow: FlowRecord, initialInputs: Option<Dict>, extracted: Dict)
      returns (r: Result<FlowRecord, FlowError>, callerInputs: Option<Dict>)
      requires Valid() && flow.id in db.flows && db.flows[flow.id].actions == flow.actions
      ensures InputsSettled(flow, db.actions, initialInputs, extracted, r, callerInputs)
      ensures r.Success? <==>
        && AllStored(flow.actions, db.actions)
        && AllRequired(RequiredOf(flow.actions, db.actions)) <= OrEmpty(initialInputs).Keys + extracted.Keys
      ensures r.Success? ==> r.value == flow
    {
      var provided := OrEmpty(initialInputs);
      callerInputs := initialInputs;
      var missing := CheckMissingInputs(flow.id, provided);
      if missing.Failure? {
        return Failure(missing.error), callerInputs;
      }
      var reqs := RequiredOf(flow.actions, db.actions);
      var merged := provided + extracted;
      assert merged.Keys == provided.Keys + extracted.Keys;
      CheckThenRecheck(reqs, provided.Keys, extracted.Keys);
      if missing.value == {} {
        return Success(flow), callerInputs;
      }
      if initialInputs.Some? {
        callerInputs := Some(merged);
      }
      var again := CheckMissingInputs(flow.id, merged);
      if again.Success? && again.value != {} {
        r := Failure(MissingRequiredInputs(again.value));
      } else {
        r := Success(flow);
      }
    }

    /** create_flow_from_prompt, once the oracle's and the search's answers
        are fixed: resolve the plan, add the missing capabilities unless the
        plan was judged sufficient, store the flow with the oracle's
        optimised ids deduplicated, and settle its inputs. `configs` are the
        ids the two phases contributed, which only feed the oracle's prompts. */
    method CreateFlowFromPrompt(answers: PlannerAnswers, initialInputs: Option<Dict>)
      returns (r: Result<FlowRecord, FlowError>, callerInputs: Option<Dict>, ghost configs: seq<Id>)
      requires Valid()
      modifies db, uuids
      ensures Valid()
      ensures db.executions == old(db.executions) && db.executionLog == old(db.executionLog)
      ensures Stores(db.blocks, db.actions) == PlanStores(answers, old(uuids.next), clock.now, Stores(old(db.blocks), old(db.actions)))
      ensures forall id :: id in old(db.actions) ==> id in db.actions && db.actions[id] == old(db.actions)[id]
      ensures var plan := PlanPhases(answers, old(uuids.next));
        && (plan.Failure? ==>
              r == Failure(PlanFailed(plan.error)) && callerInputs == initialInputs && db.flows == old(db.flows))
        && (plan.Success? ==>
              var flow := FlowRecord(plan.value.next, answers.flowName, answers.flowDescription, Dedup.Dedup(answers.optimizedIds));
              && configs == plan.value.ids
              && flow.id !in old(db.flows)
              && db.flows == old(db.flows)[flow.id := FlowDoc(flow.name, flow.description, flow.actions, None, clock.now, clock.now)]
              && InputsSettled(flow, db.actions, initialInputs, answers.extractedInputs, r, callerInputs))
    {
      configs := [];
      callerInputs := initialInputs;
      var resolved := ResolveActions(answers.candidates);
      if resolved.Failure? {
        return Failure(PlanFailed(resolved.error)), callerInputs, configs;
      }
      configs := resolved.value;
      if !answers.isSufficient {
        var added := AddMissingCapabilities(answers.missingCapabilities);
        if added.Failure? {
          return Failure(PlanFailed(added.error)), callerInputs, configs;
        }
        configs := configs + added.value;
      }
      var flow := CreateFlow(answers.flowName, answers.flowDescription, Dedup.Dedup(answers.optimizedIds));
      r, callerInputs := SettleInputs(flow, initialInputs, answers.extractedInputs);
    }

    /** create_flow: store the flow under a fresh id and hand back its record. */
    method CreateFlow(name: string, description: string, actionIds: seq<Id>) returns (flow: FlowRecord)
      requires Valid()
      modifies db, uuids
      ensures Valid()
      ensures flow == FlowRecord(old(uuids.next), name, description, actionIds)
      ensures flow.id !in old(db.flows) && uuids.next == flow.id + 1
      ensures db.flows == old(db.flows)[flow.id := FlowDoc(name, description, actionIds, None, clock.now, clock.now)]
      ensures db.blocks == old(db.blocks) && db.actions == old(db.actions)
      ensures db.executions == old(db.executions) && db.executionLog == old(db.executionLog)
    {
      var id := db.StoreFlow(name, description, actionIds);
      flow := FlowRecord(id, name, description, actionIds);
    }
  }
}
