/**
 * The entities the compute-graph scheduler reads and produces: compute graphs and their nodes,
 * finished tasks and their outputs, the reduction queue entries and the decision record.
 *
 * The bodies of `create_task`, `reducer_task`, `ReduceTask::key` and `Output::key` live in
 * the `data_model` crate, which is not part of this model; here they are recording
 * functions that keep exactly the inputs the scheduler hands them.
 */
module DataModel {
  import opened Wrappers

  type Name = string

  /** Why an event could not be turned into a decision; every error aborts the whole event. */
  datatype Error =
    | StoreError(reason: string)                // a read against the state store failed
    | NextReductionTaskError(cause: Error)      // the reduction queue read failed (re-wrapped)
    | ComputeNodeNotFound(name: Name)           // an edge names a node the graph does not have
    | MissingEdges(computeFn: Name)             // `edges.unwrap()` on a node without edges

  /** The reference a task consumes as its input. */
  datatype InputKey =
    | InvocationInput(invocationId: string)     // the invocation id doubles as the first input
    | OutputRef(invocationId: string, computeFn: Name, outputId: string)

  datatype Node =
    | Compute(name: Name, reducer: bool)
    | Router(name: Name)
  {
    function FnName(): Name {
      name
    }

    /** `Node::reducer()`: only a compute function can be a reducer. */
    predicate IsReducer() {
      Compute? && reducer
    }

    /** `create_task`: a new task of this node for the given invocation and input. */
    function CreateTask(namespace: string, graph: Name, invocationId: string, inputKey: InputKey): CreatedTask {
      CreatedTask(namespace, graph, invocationId, name, inputKey)
    }

    /** `reducer_task`: a reduction queue entry for an output this reducer must still fold in. */
    function ReducerTask(namespace: string, graph: Name, invocationId: string, taskId: string, outputKey: InputKey): ReduceTask {
      ReduceTask(namespace, graph, invocationId, name, taskId, outputKey)
    }
  }

  datatype ComputeGraph = ComputeGraph(
    namespace: string,
    name: Name,
    startFn: Node,
    nodes: map<Name, Node>,
    edges: map<Name, seq<Name>>)

  datatype TaskOutcome = Unknown | Success | Failure

  /** A task the execution layer reports as finished. */
  datatype Task = Task(
    id: string,
    namespace: string,
    computeGraphName: Name,
    computeFnName: Name,
    invocationId: string,
    inputKey: InputKey,
    outcome: TaskOutcome)

  /** A task the scheduler asks the caller to create; its id is drawn by the caller's store. */
  datatype CreatedTask = CreatedTask(
    namespace: string,
    computeGraphName: Name,
    invocationId: string,
    computeFnName: Name,
    inputKey: InputKey)

  datatype OutputPayload =
    | FnOutput(dataRef: string)
    | RouterOutput(edges: seq<Name>)

  datatype Output = Output(id: string, computeFnName: Name, payload: OutputPayload)
  {
    /** `Output::key`: the reference a downstream task uses to read this output. */
    function Key(invocationId: string): InputKey {
      OutputRef(invocationId, computeFnName, id)
    }
  }

  /** An entry of the per-invocation reduction queue. */
  datatype ReduceTask = ReduceTask(
    namespace: string,
    computeGraphName: Name,
    invocationId: string,
    computeFnName: Name,
    taskId: string,
    taskOutputKey: InputKey)
  {
    /** `ReduceTask::key`: the key under which the caller dequeues this entry. */
    function Key(): ReductionKey {
      ReductionKey(this)
    }
  }

  datatype ReductionKey = ReductionKey(entry: ReduceTask)

  datatype InvokeComputeGraphEvent = InvokeComputeGraphEvent(
    namespace: string,
    computeGraph: Name,
    invocationId: string)

  /** The part of the invocation context the scheduler reads. */
  datatype InvocationCtx = InvocationCtx(outstandingTasks: nat)

  /** The decision record a caller applies for one event. */
  datatype TaskCreationResult = TaskCreationResult(
    namespace: string,
    computeGraph: Name,
    invocationId: string,
    tasks: seq<CreatedTask>,
    newReductionTasks: seq<ReduceTask>,
    processedReductionTasks: seq<ReductionKey>,
    invocationFinished: bool)
}
