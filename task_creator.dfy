/**
 * The decision core of the compute-graph scheduler: given one event, decide which tasks to
 * create, which outputs to park on the reduction queue, which queue entries were consumed
 * and whether the invocation has finished.
 *
 * Every store read of the source becomes a parameter holding the read's result:
 * the graph lookup, the invocation context, the finished task's outputs and the head of
 * the invocation's reduction queue.
 */
module TaskCreator {
  import opened Wrappers
  import opened DataModel

  type Decision = Result<TaskCreationResult, Error>

  /** A record for `task`'s invocation. */
  function Record(task: Task, tasks: seq<CreatedTask>, reductions: seq<ReduceTask>,
                  processed: seq<ReductionKey>, finished: bool): TaskCreationResult
  {
    TaskCreationResult(task.namespace, task.computeGraphName, task.invocationId,
                       tasks, reductions, processed, finished)
  }

  // ---------------------------------------------------------------------------------------
  // Starting an invocation
  // ---------------------------------------------------------------------------------------

  /**
   * `handle_invoke_compute_graph`: the first task runs the start function on the
   * invocation id; a graph that is not found yields an empty, unfinished record.
   */
  function HandleInvokeComputeGraph(event: InvokeComputeGraphEvent,
                                    graph: Result<Option<ComputeGraph>, Error>): (r: Decision)
    ensures graph.Err? <==> r.Err?
    ensures graph.Err? ==> r.error == graph.error
    ensures r.Ok? ==> (r.value.namespace == event.namespace
                       && r.value.computeGraph == event.computeGraph
                       && r.value.invocationId == event.invocationId)
    ensures r.Ok? ==> (r.value.newReductionTasks == [] && r.value.processedReductionTasks == []
                       && !r.value.invocationFinished)
    ensures graph == Ok(None) ==> r.Ok? && r.value.tasks == []
    ensures graph.Ok? && graph.value.Some? ==>
              r.Ok? && |r.value.tasks| == 1
              && r.value.tasks[0].computeFnName == graph.value.value.startFn.FnName()
              && r.value.tasks[0].inputKey == InvocationInput(event.invocationId)
              && r.value.tasks[0].namespace == event.namespace
              && r.value.tasks[0].computeGraphName == event.computeGraph
              && r.value.tasks[0].invocationId == event.invocationId
  {
    match graph
    case Err(e) => Err(e)
    case Ok(None) =>
      Ok(TaskCreationResult(event.namespace, event.computeGraph, event.invocationId, [], [], [], false))
    case Ok(Some(g)) =>
      var first := g.startFn.CreateTask(event.namespace, event.computeGraph, event.invocationId,
                                        InvocationInput(event.invocationId));
      Ok(TaskCreationResult(event.namespace, event.computeGraph, event.invocationId, [first], [], [], false))
  }

  // ---------------------------------------------------------------------------------------
  // Node lookup
  // ---------------------------------------------------------------------------------------

  /** The position of the first name the graph has no node for (|names| if there is none). */
  function FirstUnknown(names: seq<Name>, nodes: map<Name, Node>): (i: nat)
    ensures i <= |names|
    ensures forall k :: 0 <= k < i ==> names[k] in nodes
    ensures i < |names| ==> names[i] !in nodes
  {
    if names == [] then 0
    else if names[0] !in nodes then 0
    else 1 + FirstUnknown(names[1..], nodes)
  }

  // ---------------------------------------------------------------------------------------
  // Dynamic routing
  // ---------------------------------------------------------------------------------------

  function PayloadEdges(o: Output): seq<Name> {
    if o.payload.RouterOutput? then o.payload.edges else []
  }

  /** The router edges of `outputs`: output order first, then each payload's edge order. */
  function RouterEdges(outputs: seq<Output>): seq<Name> {
    if outputs == [] then []
    else RouterEdges(outputs[..|outputs| - 1]) + PayloadEdges(outputs[|outputs| - 1])
  }

  /** The tasks a router decision creates: each routed node runs on the router's own input. */
  function RouterTasks(task: Task, g: ComputeGraph, edges: seq<Name>): Result<seq<CreatedTask>, Error> {
    var i := FirstUnknown(edges, g.nodes);
    if i < |edges| then Err(ComputeNodeNotFound(edges[i]))
    else Ok(seq(|edges|, k requires 0 <= k < |edges| =>
                g.nodes[edges[k]].CreateTask(task.namespace, task.computeGraphName,
                                             task.invocationId, task.inputKey)))
  }

  /** The loop that gathers the router edges of all outputs. */
  method CollectRouterEdges(outputs: seq<Output>) returns (routerEdges: seq<Name>)
    ensures routerEdges == RouterEdges(outputs)
  {
    routerEdges := [];
    var i := 0;
    while i < |outputs|
      invariant 0 <= i <= |outputs|
      invariant routerEdges == RouterEdges(outputs[..i])
    {
      var output := outputs[i];
      assert outputs[..i + 1][..i] == outputs[..i];
      if output.payload.RouterOutput? {
        var edges := output.payload.edges;
        var j := 0;
        while j < |edges|
          invariant 0 <= j <= |edges|
          invariant routerEdges == RouterEdges(outputs[..i]) + edges[..j]
        {
          assert edges[..j + 1] == edges[..j] + [edges[j]];
          routerEdges := routerEdges + [edges[j]];
          j := j + 1;
        }
        assert edges[..j] == edges;
      }
      i := i + 1;
    }
    assert outputs[..i] == outputs;
  }

  /** The loop that creates one task per router edge, failing on the first unknown node. */
  method CreateRouterTasks(task: Task, g: ComputeGraph, routerEdges: seq<Name>)
    returns (r: Result<seq<CreatedTask>, Error>)
    ensures r == RouterTasks(task, g, routerEdges)
  {
    var newTasks: seq<CreatedTask> := [];
    var i := 0;
    while i < |routerEdges|
      invariant 0 <= i <= |routerEdges|
      invariant forall k :: 0 <= k < i ==> routerEdges[k] in g.nodes
      invariant |newTasks| == i
      invariant forall k :: 0 <= k < i ==>
                  newTasks[k] == g.nodes[routerEdges[k]].CreateTask(task.namespace, task.computeGraphName,
                                                                     task.invocationId, task.inputKey)
    {
      var edge := routerEdges[i];
      if edge !in g.nodes {
        return Err(ComputeNodeNotFound(edge));
      }
      var computeFn := g.nodes[edge];
      newTasks := newTasks + [computeFn.CreateTask(task.namespace, task.computeGraphName,
                                                  task.invocationId, task.inputKey)];
      i := i + 1;
    }
    assert FirstUnknown(routerEdges, g.nodes) == |routerEdges|;
    assert newTasks == seq(|routerEdges|, k requires 0 <= k < |routerEdges| =>
                             g.nodes[routerEdges[k]].CreateTask(task.namespace, task.computeGraphName,
                                                                task.invocationId, task.inputKey));
    return Ok(newTasks);
  }

  // ---------------------------------------------------------------------------------------
  // Static fan-out
  // ---------------------------------------------------------------------------------------

  /** One edge paired with every output, in output order. */
  function Row(edge: Name, outputs: seq<Output>): seq<(Name, Output)> {
    seq(|outputs|, j requires 0 <= j < |outputs| => (edge, outputs[j]))
  }

  /** The (edge, output) pairs in the order the fan-out visits them: edges outer, outputs inner. */
  function Pairs(edges: seq<Name>, outputs: seq<Output>): seq<(Name, Output)> {
    if edges == [] then []
    else Pairs(edges[..|edges| - 1], outputs) + Row(edges[|edges| - 1], outputs)
  }

  /** What one (edge, output) pair contributes to the decision. */
  datatype Item = Spawn(task: CreatedTask) | Defer(entry: ReduceTask)

  predicate AllKnown(pairs: seq<(Name, Output)>, nodes: map<Name, Node>) {
    forall k :: 0 <= k < |pairs| ==> pairs[k].0 in nodes
  }

  /**
   * One pair: a reducer target is deferred to the reduction queue when a task was already
   * created earlier in the same fan-out; anything else becomes a task on that output.
   */
  function Classify(task: Task, g: ComputeGraph, pair: (Name, Output), tasksSoFar: bool): Item
    requires pair.0 in g.nodes
  {
    var node := g.nodes[pair.0];
    var key := pair.1.Key(task.invocationId);
    if node.IsReducer() && tasksSoFar
    then Defer(node.ReducerTask(task.namespace, task.computeGraphName, task.invocationId, task.id, key))
    else Spawn(node.CreateTask(task.namespace, task.computeGraphName, task.invocationId, key))
  }

  /**
   * Reference definition of the fan-out: the list of new tasks is empty when the fan-out starts
   * and the first pair always creates a task, so "a task was already created" holds
   * exactly for the pairs after the first.
   */
  function Items(task: Task, g: ComputeGraph, pairs: seq<(Name, Output)>): seq<Item>
    requires AllKnown(pairs, g.nodes)
  {
    seq(|pairs|, k requires 0 <= k < |pairs| => Classify(task, g, pairs[k], k > 0))
  }

  function Spawned(items: seq<Item>): seq<CreatedTask> {
    if items == [] then []
    else Spawned(items[..|items| - 1]) + (if items[|items| - 1].Spawn? then [items[|items| - 1].task] else [])
  }

  function Deferred(items: seq<Item>): seq<ReduceTask> {
    if items == [] then []
    else Deferred(items[..|items| - 1]) + (if items[|items| - 1].Defer? then [items[|items| - 1].entry] else [])
  }

  datatype FanOutPlan = FanOutPlan(tasks: seq<CreatedTask>, reductions: seq<ReduceTask>)

  lemma {:induction false} PairsFromEdges(edges: seq<Name>, outputs: seq<Output>)
    ensures |outputs| == 0 ==> Pairs(edges, outputs) == []
    ensures forall k :: 0 <= k < |Pairs(edges, outputs)| ==> Pairs(edges, outputs)[k].0 in edges
  {
    if edges != [] {
      var init := edges[..|edges| - 1];
      PairsFromEdges(init, outputs);
      forall k | 0 <= k < |Pairs(edges, outputs)|
        ensures Pairs(edges, outputs)[k].0 in edges
      {
        if k < |Pairs(init, outputs)| {
          assert Pairs(edges, outputs)[k] == Pairs(init, outputs)[k];
          assert Pairs(init, outputs)[k].0 in init;
        }
      }
    }
  }

  /** The fan-out decision: an unknown edge fails the event, but only if there is an output to visit it with. */
  function FanOut(task: Task, g: ComputeGraph, edges: seq<Name>, outputs: seq<Output>): Result<FanOutPlan, Error> {
    var i := FirstUnknown(edges, g.nodes);
    if |outputs| > 0 && i < |edges| then Err(ComputeNodeNotFound(edges[i]))
    else
      var items := FanOutItems(task, g, edges, outputs);
      Ok(FanOutPlan(Spawned(items), Deferred(items)))
  }

  /** The items of a fan-out that looks up only known edges. */
  function FanOutItems(task: Task, g: ComputeGraph, edges: seq<Name>, outputs: seq<Output>): seq<Item>
    requires |outputs| == 0 || FirstUnknown(edges, g.nodes) == |edges|
    ensures AllKnown(Pairs(edges, outputs), g.nodes)
  {
    PairsFromEdges(edges, outputs);
    Items(task, g, Pairs(edges, outputs))
  }

  lemma ItemsSnoc(task: Task, g: ComputeGraph, pairs: seq<(Name, Output)>, pair: (Name, Output))
    requires AllKnown(pairs, g.nodes) && pair.0 in g.nodes
    ensures AllKnown(pairs + [pair], g.nodes)
    ensures Items(task, g, pairs + [pair]) == Items(task, g, pairs) + [Classify(task, g, pair, |pairs| > 0)]
  {
    assert AllKnown(pairs + [pair], g.nodes);
  }

  /** One more pair adds its item to exactly one of the two lists. */
  lemma FanOutStep(task: Task, g: ComputeGraph, pairs: seq<(Name, Output)>, pair: (Name, Output))
    requires AllKnown(pairs, g.nodes) && pair.0 in g.nodes
    ensures AllKnown(pairs + [pair], g.nodes)
    ensures var item := Classify(task, g, pair, |pairs| > 0);
            && Spawned(Items(task, g, pairs + [pair]))
               == Spawned(Items(task, g, pairs)) + (if item.Spawn? then [item.task] else [])
            && Deferred(Items(task, g, pairs + [pair]))
               == Deferred(Items(task, g, pairs)) + (if item.Defer? then [item.entry] else [])
  {
    ItemsSnoc(task, g, pairs, pair);
    var items := Items(task, g, pairs + [pair]);
    assert items[..|items| - 1] == Items(task, g, pairs);
  }

  lemma FanOutFound(task: Task, g: ComputeGraph, edges: seq<Name>, outputs: seq<Output>)
    requires |outputs| == 0 || FirstUnknown(edges, g.nodes) == |edges|
    ensures FanOut(task, g, edges, outputs)
            == Ok(FanOutPlan(Spawned(FanOutItems(task, g, edges, outputs)),
                             Deferred(FanOutItems(task, g, edges, outputs))))
  {
  }

  lemma FanOutNotFound(task: Task, g: ComputeGraph, edges: seq<Name>, outputs: seq<Output>, i: nat)
    requires |outputs| > 0 && i < |edges| && edges[i] !in g.nodes
    requires forall k :: 0 <= k < i ==> edges[k] in g.nodes
    ensures FanOut(task, g, edges, outputs) == Err(ComputeNodeNotFound(edges[i]))
  {
  }

  lemma RowSnoc(edge: Name, outputs: seq<Output>, j: nat)
    requires j < |outputs|
    ensures Row(edge, outputs[..j + 1]) == Row(edge, outputs[..j]) + [(edge, outputs[j])]
  {
  }

  /** The nested loop of the fan-out, pushing onto `new_tasks` and `new_reduction_tasks`. */
  method FanOutTasks(task: Task, g: ComputeGraph, edges: seq<Name>, outputs: seq<Output>)
    returns (r: Result<FanOutPlan, Error>)
    ensures r == FanOut(task, g, edges, outputs)
  {
    var newTasks: seq<CreatedTask> := [];
    var newReductionTasks: seq<ReduceTask> := [];
    ghost var visited: seq<(Name, Output)> := [];
    var i := 0;
    while i < |edges|
      invariant 0 <= i <= |edges|
      invariant |outputs| > 0 ==> forall k :: 0 <= k < i ==> edges[k] in g.nodes
      invariant visited == Pairs(edges[..i], outputs)
      invariant AllKnown(visited, g.nodes)
      invariant newTasks == Spawned(Items(task, g, visited))
      invariant newReductionTasks == Deferred(Items(task, g, visited))
      invariant |newTasks| > 0 <==> |visited| > 0
    {
      var edge := edges[i];
      assert edges[..i + 1][..i] == edges[..i];
      var j := 0;
      while j < |outputs|
        invariant 0 <= j <= |outputs|
        invariant j > 0 ==> edge in g.nodes
        invariant visited == Pairs(edges[..i], outputs) + Row(edge, outputs[..j])
        invariant AllKnown(visited, g.nodes)
        invariant newTasks == Spawned(Items(task, g, visited))
        invariant newReductionTasks == Deferred(Items(task, g, visited))
        invariant |newTasks| > 0 <==> |visited| > 0
      {
        if edge !in g.nodes {
          FanOutNotFound(task, g, edges, outputs, i);
          return Err(ComputeNodeNotFound(edge));
        }
        var computeNode := g.nodes[edge];
        var output := outputs[j];
        RowSnoc(edge, outputs, j);
        FanOutStep(task, g, visited, (edge, output));
        if computeNode.IsReducer() && |newTasks| > 0 {
          newReductionTasks := newReductionTasks + [computeNode.ReducerTask(task.namespace, task.computeGraphName,
                                                                           task.invocationId, task.id,
                                                                           output.Key(task.invocationId))];
          visited := visited + [(edge, output)];
          j := j + 1;
          continue;
        }
        newTasks := newTasks + [computeNode.CreateTask(task.namespace, task.computeGraphName,
                                                      task.invocationId, output.Key(task.invocationId))];
        visited := visited + [(edge, output)];
        j := j + 1;
      }
      assert outputs[..j] == outputs;
      i := i + 1;
    }
    assert edges[..i] == edges;
    FanOutFound(task, g, edges, outputs);
    return Ok(FanOutPlan(newTasks, newReductionTasks));
  }

  // ---------------------------------------------------------------------------------------
  // Finishing a task
  // ---------------------------------------------------------------------------------------

  predicate IsReducerFn(g: ComputeGraph, name: Name) {
    name in g.nodes && g.nodes[name].Compute? && g.nodes[name].reducer
  }

  /**
   * The decision ladder of `handle_task_finished`, as a function of the finished task, the graph
   * snapshot and the three store reads (invocation context, task outputs, reduction queue head).
   */
  function TaskFinishedDecision(task: Task, g: ComputeGraph, ctx: Result<InvocationCtx, Error>,
                                outputs: Result<seq<Output>, Error>,
                                nextReduction: Result<Option<ReduceTask>, Error>): (r: Decision)
    ensures r.Ok? ==> (r.value.namespace == task.namespace
                       && r.value.computeGraph == task.computeGraphName
                       && r.value.invocationId == task.invocationId)
  {
    if ctx.Err? then Err(ctx.error)
    else if task.outcome == Failure then
      Ok(Record(task, [], [], [], ctx.value.outstandingTasks == 0))
    else if outputs.Err? then Err(outputs.error)
    else if RouterEdges(outputs.value) != [] then
      match RouterTasks(task, g, RouterEdges(outputs.value))
      case Err(e) => Err(e)
      case Ok(ts) => Ok(Record(task, ts, [], [], false))
    else if IsReducerFn(g, task.computeFnName) && nextReduction.Err? then
      Err(NextReductionTaskError(nextReduction.error))
    else if IsReducerFn(g, task.computeFnName) && nextReduction.value.Some? then
      var head := nextReduction.value.value;
      var next := g.nodes[task.computeFnName].CreateTask(task.namespace, task.computeGraphName,
                                                         task.invocationId, head.taskOutputKey);
      Ok(Record(task, [next], [], [head.Key()], false))
    else if task.computeFnName !in g.edges then
      if ctx.value.outstandingTasks == 0 then Ok(Record(task, [], [], [], true))
      else Err(MissingEdges(task.computeFnName))
    else
      match FanOut(task, g, g.edges[task.computeFnName], outputs.value)
      case Err(e) => Err(e)
      case Ok(plan) => Ok(Record(task, plan.tasks, plan.reductions, [], false))
  }

  /**
   * `handle_task_finished`: the imperative rendering of `TaskFinishedDecision`, with the same
   * reads and early returns, running the three loops of the source in place of their functions.
   */
  method HandleTaskFinished(task: Task, g: ComputeGraph, ctx: Result<InvocationCtx, Error>,
                            outputs: Result<seq<Output>, Error>,
                            nextReduction: Result<Option<ReduceTask>, Error>)
    returns (r: Decision)
    ensures r == TaskFinishedDecision(task, g, ctx, outputs, nextReduction)
  {
    if ctx.Err? {
      return Err(ctx.error);
    }
    var invocationCtx := ctx.value;

    if task.outcome == Failure {
      var invocationFinished := false;
      if invocationCtx.outstandingTasks == 0 {
        invocationFinished := true;
      }
      return Ok(Record(task, [], [], [], invocationFinished));
    }

    if outputs.Err? {
      return Err(outputs.error);
    }
    var taskOutputs := outputs.value;
    var routerEdges := CollectRouterEdges(taskOutputs);
    if routerEdges != [] {
      var created := CreateRouterTasks(task, g, routerEdges);
      if created.Err? {
        return Err(created.error);
      }
      return Ok(Record(task, created.value, [], [], false));
    }

    if task.computeFnName in g.nodes {
      var computeNode := g.nodes[task.computeFnName];
      if computeNode.Compute? && computeNode.reducer {
        if nextReduction.Err? {
          return Err(NextReductionTaskError(nextReduction.error));
        }
        if nextReduction.value.Some? {
          var reductionTask := nextReduction.value.value;
          var newTask := computeNode.CreateTask(task.namespace, task.computeGraphName,
                                                task.invocationId, reductionTask.taskOutputKey);
          return Ok(Record(task, [newTask], [], [reductionTask.Key()], false));
        }
      }
    }

    if task.computeFnName !in g.edges && invocationCtx.outstandingTasks == 0 {
      return Ok(Record(task, [], [], [], true));
    }
    if task.computeFnName !in g.edges {
      return Err(MissingEdges(task.computeFnName));
    }
    var plan := FanOutTasks(task, g, g.edges[task.computeFnName], taskOutputs);
    if plan.Err? {
      return Err(plan.error);
    }
    return Ok(Record(task, plan.value.tasks, plan.value.reductions, [], false));
  }
}
