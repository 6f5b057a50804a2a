/** The documents the engine keeps in Marqo and the store itself, viewed as
    four maps from fresh identifiers to documents (class MarqoDatabase). */
module Marqo {
  import opened Values
  import opened Environment

  /** Status values of ActionExecutionStatus; flow executions use them too. */
  datatype ActionExecutionStatus = Pending | Running | Completed | Failed

  /** A document of the blocks index: `type` is always "website_based". */
  datatype Block = Block(name: string, kind: string, url: string, createdAt: Time, updatedAt: Time)

  /** The fields a caller hands to store_action. */
  datatype ActionData = ActionData(
    blockId: Id,
    name: string,
    navigationGoal: string,
    dataExtractionGoal: string,
    requiredInputs: seq<string>,
    outputSchema: Json,
    url: string)

  /** A document of the actions index, as get_action gives it back. */
  datatype Action = Action(
    blockId: Id,
    name: string,
    navigationGoal: string,
    dataExtractionGoal: string,
    requiredInputs: seq<string>,
    outputSchema: Json,
    url: string,
    createdAt: Time,
    updatedAt: Time)

  /** A document of the flows index. `actions` is the ordered list of action
      ids; `status` is absent until continue_flow_execution sets it. */
  datatype FlowDoc = FlowDoc(
    name: string,
    description: string,
    actions: seq<Id>,
    status: Option<ActionExecutionStatus>,
    createdAt: Time,
    updatedAt: Time)

  /** One run of one action inside a flow execution (ActionExecution.to_dict). */
  datatype ActionExecution = ActionExecution(
    id: Id,
    actionId: Id,
    inputs: Dict,
    status: ActionExecutionStatus,
    skyvernTaskId: Option<Id>,
    output: Option<Json>,
    error: Option<string>,
    startedAt: Option<Time>,
    completedAt: Option<Time>)

  /** FlowExecution.to_dict. */
  datatype FlowExecutionDict = FlowExecutionDict(
    id: Id,
    flowId: Id,
    initialInputs: Dict,
    actionExecutions: seq<ActionExecution>,
    status: ActionExecutionStatus,
    startedAt: Option<Time>,
    completedAt: Option<Time>,
    outputs: Option<map<Id, Json>>)

  /** A document of the executions index: store_execution keeps neither the
      execution's own id nor its outputs. */
  datatype ExecutionDoc = ExecutionDoc(
    flowId: Id,
    initialInputs: Dict,
    actionExecutions: seq<ActionExecution>,
    status: ActionExecutionStatus,
    startedAt: Option<Time>,
    completedAt: Option<Time>)

  /** What store_execution writes for a given FlowExecution.to_dict. */
  function ExecutionDocOf(d: FlowExecutionDict): ExecutionDoc {
    ExecutionDoc(d.flowId, d.initialInputs, d.actionExecutions, d.status, d.startedAt, d.completedAt)
  }

  class MarqoDatabase {
    const uuids: Uuid
    const clock: Clock
    var blocks: map<Id, Block>
    var actions: map<Id, Action>
    var flows: map<Id, FlowDoc>
    var executions: map<Id, ExecutionDoc>
    /** The ids of the execution documents, in the order they were added. */
    ghost var executionLog: seq<Id>

    /** Every stored id came from `uuids`, so the next one is fresh, and the
        executions index holds exactly the logged documents, each logged once. */
    ghost predicate Valid()
      reads this, uuids
    {
      && (forall id :: id in blocks ==> id < uuids.next)
      && (forall id :: id in actions ==> id < uuids.next)
      && (forall id :: id in flows ==> id < uuids.next)
      && (forall id :: id in executions ==> id < uuids.next)
      && executions.Keys == (set k | 0 <= k < |executionLog| :: executionLog[k])
      && NoDuplicates(executionLog)
    }

    constructor (uuids: Uuid, clock: Clock)
      ensures Valid() && this.uuids == uuids && this.clock == clock
      ensures blocks == map[] && actions == map[] && flows == map[] && executions == map[]
      ensures executionLog == []
    {
      this.uuids := uuids;
      this.clock := clock;
      blocks, actions, flows, executions := map[], map[], map[], map[];
      executionLog := [];
    }

    /** store_block: a fresh id, both timestamps from the clock. */
    method StoreBlock(name: string, url: string) returns (id: Id)
      requires Valid()
      modifies this, uuids
      ensures Valid() && id == old(uuids.next) && uuids.next == id + 1
      ensures id !in old(blocks)
      ensures blocks == old(blocks)[id := Block(name, "website_based", url, clock.now, clock.now)]
      ensures actions == old(actions) && flows == old(flows) && executions == old(executions)
      ensures executionLog == old(executionLog)
    {
      id := uuids.New();
      blocks := blocks[id := Block(name, "website_based", url, clock.now, clock.now)];
    }

    /** store_action: a fresh id, both timestamps from the clock. */
    method StoreAction(data: ActionData) returns (id: Id)
      requires Valid()
      modifies this, uuids
      ensures Valid() && id == old(uuids.next) && uuids.next == id + 1
      ensures id !in old(actions)
      ensures actions == old(actions)[id := ActionOf(data, clock.now)]
      ensures blocks == old(blocks) && flows == old(flows) && executions == old(executions)
      ensures executionLog == old(executionLog)
    {
      id := uuids.New();
      actions := actions[id := ActionOf(data, clock.now)];
    }

    /** get_action: the stored document, or None when there is none. */
    method GetAction(id: Id) returns (r: Option<Action>)
      ensures r.Some? <==> id in actions
      ensures r.Some? ==> r.value == actions[id]
    {
      r := if id in actions then Some(actions[id]) else None;
    }

    /** store_flow: a fresh id; the flow has no status field yet. */
    method StoreFlow(name: string, description: string, actionIds: seq<Id>) returns (id: Id)
      requires Valid()
      modifies this, uuids
      ensures Valid() && id == old(uuids.next) && uuids.next == id + 1
      ensures id !in old(flows)
      ensures flows == old(flows)[id := FlowDoc(name, description, actionIds, None, clock.now, clock.now)]
      ensures blocks == old(blocks) && actions == old(actions) && executions == old(executions)
      ensures executionLog == old(executionLog)
    {
      id := uuids.New();
      flows := flows[id := FlowDoc(name, description, actionIds, None, clock.now, clock.now)];
    }

    /** get_document on the flows index. */
    method GetFlow(id: Id) returns (r: Option<FlowDoc>)
      ensures r.Some? <==> id in flows
      ensures r.Some? ==> r.value == flows[id]
    {
      r := if id in flows then Some(flows[id]) else None;
    }

    /** update_documents on the flows index with a new `status` field; a
        missing document is left missing. */
    method SetFlowStatus(id: Id, status: ActionExecutionStatus)
      requires Valid()
      modifies this
      ensures Valid()
      ensures flows == if id in old(flows) then old(flows)[id := old(flows)[id].(status := Some(status))] else old(flows)
      ensures blocks == old(blocks) && actions == old(actions) && executions == old(executions)
      ensures executionLog == old(executionLog)
    {
      if id in flows {
        flows := flows[id := flows[id].(status := Some(status))];
      }
    }

    /** store_execution: every call adds a NEW document under a fresh id. */
    method StoreExecution(d: FlowExecutionDict) returns (id: Id)
      requires Valid()
      modifies this, uuids
      ensures Valid() && id == old(uuids.next) && uuids.next == id + 1
      ensures id !in old(executions)
      ensures executions == old(executions)[id := ExecutionDocOf(d)]
      ensures executionLog == old(executionLog) + [id]
      ensures blocks == old(blocks) && actions == old(actions) && flows == old(flows)
    {
      ghost var log0 := executionLog;
      id := uuids.New();
      executions := executions[id := ExecutionDocOf(d)];
      executionLog := executionLog + [id];
      assert executionLog[|log0|] == id;
      assert forall k :: 0 <= k < |log0| ==> executionLog[k] == log0[k];
    }
  }

  /** The ids `logged` name distinct documents, none of them in `before`. */
  predicate AllNew(logged: seq<Id>, before: map<Id, ExecutionDoc>) {
    NoDuplicates(logged) && forall k :: 0 <= k < |logged| ==> logged[k] !in before
  }

  /** The entries a run appends to a duplicate-free log name new documents. */
  lemma LoggedAreNew(before: map<Id, ExecutionDoc>, log0: seq<Id>, logged: seq<Id>)
    requires before.Keys == (set k | 0 <= k < |log0| :: log0[k])
    requires NoDuplicates(log0 + logged)
    ensures AllNew(logged, before)
  {
    forall i, j | 0 <= i < j < |logged| ensures logged[i] != logged[j] {
      assert (log0 + logged)[|log0| + i] == logged[i];
      assert (log0 + logged)[|log0| + j] == logged[j];
    }
    forall k | 0 <= k < |logged| ensures logged[k] !in before {
      assert (log0 + logged)[|log0| + k] == logged[k];
      assert forall m :: 0 <= m < |log0| ==> (log0 + logged)[m] == log0[m];
    }
  }

  /** The document store_action writes for `data` at time `now`. */
  function ActionOf(data: ActionData, now: Time): Action {
    Action(data.blockId, data.name, data.navigationGoal, data.dataExtractionGoal,
           data.requiredInputs, data.outputSchema, data.url, now, now)
  }
}
