/**
 * What the decision core promises: the shape of each rung of the decision ladder, the order
 * in which the fan-out visits (edge, output) pairs, when a pair is parked on the reduction
 * queue, and when an invocation may be declared finished.
 */
module TaskCreatorProperties {
  import opened Wrappers
  import opened DataModel
  import opened TaskCreator

  // ---------------------------------------------------------------------------------------
  // Sequences of fan-out items
  // ---------------------------------------------------------------------------------------

  /** Every item lands in exactly one of the two lists. */
  lemma {:induction false} SpawnedDeferredLength(items: seq<Item>)
    ensures |Spawned(items)| + |Deferred(items)| == |items|
  {
    if items != [] {
      SpawnedDeferredLength(items[..|items| - 1]);
    }
  }

  /** Each created task comes from an item at or after its own position. */
  lemma {:induction false} SpawnedSource(items: seq<Item>, j: nat)
    requires j < |Spawned(items)|
    ensures exists k :: j <= k < |items| && items[k] == Spawn(Spawned(items)[j])
  {
    var init := items[..|items| - 1];
    if j < |Spawned(init)| {
      SpawnedSource(init, j);
      var k :| j <= k < |init| && init[k] == Spawn(Spawned(init)[j]);
      assert items[k] == init[k];
    } else {
      SpawnedDeferredLength(init);
      assert items[|items| - 1] == Spawn(Spawned(items)[j]);
    }
  }

  /** Each queued entry comes from an item of the list. */
  lemma {:induction false} DeferredSource(items: seq<Item>, j: nat)
    requires j < |Deferred(items)|
    ensures exists k :: 0 <= k < |items| && items[k] == Defer(Deferred(items)[j])
  {
    var init := items[..|items| - 1];
    if j < |Deferred(init)| {
      DeferredSource(init, j);
      var k :| 0 <= k < |init| && init[k] == Defer(Deferred(init)[j]);
      assert items[k] == init[k];
    } else {
      assert items[|items| - 1] == Defer(Deferred(items)[j]);
    }
  }

  /** No task is created exactly when every item so far was deferred. */
  lemma {:induction false} SpawnedEmptyIff(items: seq<Item>)
    ensures Spawned(items) == [] <==> forall k :: 0 <= k < |items| ==> items[k].Defer?
  {
    if items != [] {
      var init := items[..|items| - 1];
      SpawnedEmptyIff(init);
      if Spawned(items) == [] {
        forall k | 0 <= k < |items| ensures items[k].Defer? {
          if k < |init| { assert items[k] == init[k]; }
        }
      }
    }
  }

  /** A first item that spawns, followed only by deferred items, yields exactly that one task. */
  lemma {:induction false} SpawnedOnlyFirst(items: seq<Item>)
    requires items != [] && items[0].Spawn?
    requires forall k :: 0 < k < |items| ==> items[k].Defer?
    ensures Spawned(items) == [items[0].task]
  {
    if |items| > 1 {
      var init := items[..|items| - 1];
      SpawnedOnlyFirst(init);
    }
  }

  /** A first item that spawns, followed only by deferred items, queues every later entry in order. */
  lemma {:induction false} DeferredAllButFirst(items: seq<Item>)
    requires items != [] && items[0].Spawn?
    requires forall k :: 0 < k < |items| ==> items[k].Defer?
    ensures Deferred(items) == seq(|items| - 1, k requires 0 <= k < |items| - 1 => items[k + 1].entry)
  {
    if |items| > 1 {
      var init := items[..|items| - 1];
      DeferredAllButFirst(init);
    }
  }

  // ---------------------------------------------------------------------------------------
  // The visiting order of the fan-out
  // ---------------------------------------------------------------------------------------

  lemma {:induction false} PairsLength(edges: seq<Name>, outputs: seq<Output>)
    ensures |Pairs(edges, outputs)| == |edges| * |outputs|
  {
    if edges != [] {
      PairsLength(edges[..|edges| - 1], outputs);
      assert |edges| * |outputs| == (|edges| - 1) * |outputs| + |outputs|;
    }
  }

  /** Pair number i * |outputs| + j is edge i with output j: edges outer, outputs inner. */
  lemma {:induction false} PairsAt(edges: seq<Name>, outputs: seq<Output>, i: nat, j: nat)
    requires i < |edges| && j < |outputs|
    ensures i * |outputs| + j < |Pairs(edges, outputs)|
    ensures Pairs(edges, outputs)[i * |outputs| + j] == (edges[i], outputs[j])
  {
    var init := edges[..|edges| - 1];
    var n := |outputs|;
    PairsLength(init, outputs);
    PairsLength(edges, outputs);
    assert |edges| * n == (|edges| - 1) * n + n;
    if i == |edges| - 1 {
      assert i * n == |Pairs(init, outputs)|;
    } else {
      PairsAt(init, outputs, i, j);
      assert (i + 1) * n <= (|edges| - 1) * n by {
        MulLeq(i + 1, |edges| - 1, n);
      }
      assert i * n + j < |Pairs(init, outputs)|;
    }
  }

  /** Arithmetic step of `PairsAt`, kept apart so that its proof stays small. */
  lemma MulLeq(a: nat, b: nat, n: nat)
    requires a <= b
    ensures a * n <= b * n
  {
  }

  /** Every pair joins one of the edges with one of the outputs. */
  lemma {:induction false} PairsMembers(edges: seq<Name>, outputs: seq<Output>, k: nat)
    requires k < |Pairs(edges, outputs)|
    ensures Pairs(edges, outputs)[k].0 in edges && Pairs(edges, outputs)[k].1 in outputs
  {
    var init := edges[..|edges| - 1];
    if k < |Pairs(init, outputs)| {
      PairsMembers(init, outputs, k);
    }
  }

  // ---------------------------------------------------------------------------------------
  // The fan-out decision
  // ---------------------------------------------------------------------------------------

  /** The fan-out fails exactly when it has an output to visit some unknown edge with. */
  lemma FanOutFailsIff(task: Task, g: ComputeGraph, edges: seq<Name>, outputs: seq<Output>)
    ensures FanOut(task, g, edges, outputs).Err?
            <==> |outputs| > 0 && exists k :: 0 <= k < |edges| && edges[k] !in g.nodes
    ensures FanOut(task, g, edges, outputs).Err? ==>
              FanOut(task, g, edges, outputs).error == ComputeNodeNotFound(edges[FirstUnknown(edges, g.nodes)])
  {
  }

  /** Without outputs nothing is visited: no task, no queue entry and no lookup error. */
  lemma FanOutWithoutOutputs(task: Task, g: ComputeGraph, edges: seq<Name>)
    ensures FanOut(task, g, edges, []) == Ok(FanOutPlan([], []))
  {
    PairsFromEdges(edges, []);
  }

  /** Each (edge, output) pair adds exactly one task or one queue entry. */
  lemma FanOutCount(task: Task, g: ComputeGraph, edges: seq<Name>, outputs: seq<Output>)
    requires FanOut(task, g, edges, outputs).Ok?
    ensures |FanOut(task, g, edges, outputs).value.tasks| + |FanOut(task, g, edges, outputs).value.reductions|
            == |edges| * |outputs|
  {
    PairsFromEdges(edges, outputs);
    var items := Items(task, g, Pairs(edges, outputs));
    SpawnedDeferredLength(items);
    PairsLength(edges, outputs);
  }

  /**
   * The deferral rule as the loop states it: pair k is queued exactly when its target is a
   * reducer and some task was created for an earlier pair of the same fan-out; otherwise it
   * becomes a task reading that output.
   */
  lemma FanOutDeferralRule(task: Task, g: ComputeGraph, edges: seq<Name>, outputs: seq<Output>, k: nat)
    requires FanOut(task, g, edges, outputs).Ok?
    requires k < |FanOutItems(task, g, edges, outputs)|
    ensures var items := FanOutItems(task, g, edges, outputs);
            var pair := Pairs(edges, outputs)[k];
            var node := g.nodes[pair.0];
            var key := pair.1.Key(task.invocationId);
            if node.IsReducer() && Spawned(items[..k]) != []
            then items[k] == Defer(node.ReducerTask(task.namespace, task.computeGraphName,
                                                    task.invocationId, task.id, key))
            else items[k] == Spawn(node.CreateTask(task.namespace, task.computeGraphName,
                                                   task.invocationId, key))
  {
    var items := FanOutItems(task, g, edges, outputs);
    SpawnedEmptyIff(items[..k]);
    if k > 0 {
      assert items[..k][0] == items[0];
    }
  }

  /** The first pair (first edge, first output) always becomes the first task. */
  lemma FanOutFirstPairSpawns(task: Task, g: ComputeGraph, edges: seq<Name>, outputs: seq<Output>)
    requires FanOut(task, g, edges, outputs).Ok?
    requires edges != [] && outputs != []
    ensures var tasks := FanOut(task, g, edges, outputs).value.tasks;
            && tasks != []
            && tasks[0] == g.nodes[edges[0]].CreateTask(task.namespace, task.computeGraphName,
                                                        task.invocationId, outputs[0].Key(task.invocationId))
  {
    PairsFromEdges(edges, outputs);
    PairsAt(edges, outputs, 0, 0);
    var items := Items(task, g, Pairs(edges, outputs));
    assert items[0] == Classify(task, g, (edges[0], outputs[0]), false);
    FirstSpawnIsFirstTask(items);
  }

  lemma {:induction false} FirstSpawnIsFirstTask(items: seq<Item>)
    requires items != [] && items[0].Spawn?
    ensures Spawned(items) != [] && Spawned(items)[0] == items[0].task
  {
    if |items| > 1 {
      FirstSpawnIsFirstTask(items[..|items| - 1]);
    }
  }

  /** The nodes of a graph are stored under their own names. */
  predicate WellNamed(g: ComputeGraph) {
    forall n :: n in g.nodes ==> g.nodes[n].FnName() == n
  }

  /**
   * Within one fan-out at most one task runs a reducer, and it can only be the first task:
   * every later pair that targets a reducer is queued.
   */
  lemma FanOutReducerOnlyFirst(task: Task, g: ComputeGraph, edges: seq<Name>, outputs: seq<Output>, j: nat)
    requires WellNamed(g)
    requires FanOut(task, g, edges, outputs).Ok?
    requires 0 < j < |FanOut(task, g, edges, outputs).value.tasks|
    ensures !IsReducerFn(g, FanOut(task, g, edges, outputs).value.tasks[j].computeFnName)
  {
    PairsFromEdges(edges, outputs);
    var pairs := Pairs(edges, outputs);
    var items := Items(task, g, pairs);
    SpawnedSource(items, j);
    var k :| j <= k < |items| && items[k] == Spawn(Spawned(items)[j]);
    assert items[k] == Classify(task, g, pairs[k], true);
  }

  /**
   * A fan-out whose only edge is a reducer creates one reducer task on the first output and
   * queues each later output, in order, as an entry naming the finished task.
   */
  lemma FanOutIntoReducer(task: Task, g: ComputeGraph, r: Name, outputs: seq<Output>)
    requires r in g.nodes && g.nodes[r].IsReducer()
    requires outputs != []
    ensures var plan := FanOut(task, g, [r], outputs);
            && plan.Ok?
            && plan.value.tasks == [g.nodes[r].CreateTask(task.namespace, task.computeGraphName,
                                                         task.invocationId, outputs[0].Key(task.invocationId))]
            && plan.value.reductions
               == seq(|outputs| - 1, k requires 0 <= k < |outputs| - 1 =>
                        g.nodes[r].ReducerTask(task.namespace, task.computeGraphName, task.invocationId,
                                               task.id, outputs[k + 1].Key(task.invocationId)))
  {
    PairsFromEdges([r], outputs);
    var pairs := Pairs([r], outputs);
    var items := Items(task, g, pairs);
    PairsLength([r], outputs);
    forall k | 0 <= k < |pairs| ensures pairs[k] == (r, outputs[k]) {
      PairsAt([r], outputs, 0, k);
    }
    SpawnedOnlyFirst(items);
    DeferredAllButFirst(items);
  }

  /** Created tasks read one of the finished task's outputs; queue entries name the finished task. */
  lemma FanOutInputs(task: Task, g: ComputeGraph, edges: seq<Name>, outputs: seq<Output>)
    requires FanOut(task, g, edges, outputs).Ok?
    ensures var plan := FanOut(task, g, edges, outputs).value;
            && (forall j :: 0 <= j < |plan.tasks| ==>
                  plan.tasks[j].computeFnName in NodeNames(g, edges)
                  && exists o :: o in outputs && plan.tasks[j].inputKey == o.Key(task.invocationId))
            && (forall j :: 0 <= j < |plan.reductions| ==>
                  plan.reductions[j].taskId == task.id
                  && plan.reductions[j].computeFnName in NodeNames(g, edges)
                  && exists o :: o in outputs && plan.reductions[j].taskOutputKey == o.Key(task.invocationId))
  {
    PairsFromEdges(edges, outputs);
    var pairs := Pairs(edges, outputs);
    var items := Items(task, g, pairs);
    var plan := FanOut(task, g, edges, outputs).value;
    forall j | 0 <= j < |plan.tasks|
      ensures plan.tasks[j].computeFnName in NodeNames(g, edges)
      ensures exists o :: o in outputs && plan.tasks[j].inputKey == o.Key(task.invocationId)
    {
      SpawnedSource(items, j);
      var k :| j <= k < |items| && items[k] == Spawn(plan.tasks[j]);
      PairsMembers(edges, outputs, k);
    }
    forall j | 0 <= j < |plan.reductions|
      ensures plan.reductions[j].taskId == task.id
      ensures plan.reductions[j].computeFnName in NodeNames(g, edges)
      ensures exists o :: o in outputs && plan.reductions[j].taskOutputKey == o.Key(task.invocationId)
    {
      DeferredSource(items, j);
      var k :| 0 <= k < |items| && items[k] == Defer(plan.reductions[j]);
      PairsMembers(edges, outputs, k);
    }
  }

  /** The names of the nodes that `edges` lead to. */
  function NodeNames(g: ComputeGraph, edges: seq<Name>): set<Name> {
    set e | e in edges && e in g.nodes :: g.nodes[e].FnName()
  }

  // ---------------------------------------------------------------------------------------
  // The rungs of the decision ladder
  // ---------------------------------------------------------------------------------------

  /** A failed task creates nothing and finishes the invocation exactly when nothing is outstanding. */
  lemma FailedTaskDecision(task: Task, g: ComputeGraph, ctx: Result<InvocationCtx, Error>,
                           outputs: Result<seq<Output>, Error>, nextReduction: Result<Option<ReduceTask>, Error>)
    requires task.outcome == Failure && ctx.Ok?
    ensures var r := TaskFinishedDecision(task, g, ctx, outputs, nextReduction);
            && r.Ok?
            && r.value.tasks == [] && r.value.newReductionTasks == [] && r.value.processedReductionTasks == []
            && (r.value.invocationFinished <==> ctx.value.outstandingTasks == 0)
  {
  }

  /**
   * A store read that fails where it is reached aborts the event with that read's error: the
   * invocation context for every task, the outputs after the failure check, and the queue head
   * only for a compute reducer without router edges.
   */
  lemma ReadFailuresAbort(task: Task, g: ComputeGraph, ctx: Result<InvocationCtx, Error>,
                          outputs: Result<seq<Output>, Error>, nextReduction: Result<Option<ReduceTask>, Error>)
    ensures ctx.Err? ==> TaskFinishedDecision(task, g, ctx, outputs, nextReduction) == Err(ctx.error)
    ensures ctx.Ok? && task.outcome != Failure && outputs.Err?
            ==> TaskFinishedDecision(task, g, ctx, outputs, nextReduction) == Err(outputs.error)
    ensures ctx.Ok? && task.outcome != Failure && outputs.Ok? && RouterEdges(outputs.value) == []
            && IsReducerFn(g, task.computeFnName) && nextReduction.Err?
            ==> TaskFinishedDecision(task, g, ctx, outputs, nextReduction)
                == Err(NextReductionTaskError(nextReduction.error))
  {
  }

  /** The router edges of a concatenation are the concatenation of the router edges. */
  lemma {:induction false} RouterEdgesAppend(a: seq<Output>, b: seq<Output>)
    ensures RouterEdges(a + b) == RouterEdges(a) + RouterEdges(b)
  {
    if b == [] {
      assert a + b == a;
    } else {
      var init := b[..|b| - 1];
      assert (a + b)[..|a + b| - 1] == a + init;
      assert (a + b)[|a + b| - 1] == b[|b| - 1];
      RouterEdgesAppend(a, init);
    }
  }

  /** The router rung applies exactly when some output is a router payload with at least one edge. */
  lemma {:induction false} RouterEdgesEmptyIff(outputs: seq<Output>)
    ensures RouterEdges(outputs) != []
            <==> exists k :: 0 <= k < |outputs| && outputs[k].payload.RouterOutput? && outputs[k].payload.edges != []
  {
    if outputs != [] {
      var init := outputs[..|outputs| - 1];
      RouterEdgesEmptyIff(init);
      if exists k :: 0 <= k < |init| && init[k].payload.RouterOutput? && init[k].payload.edges != [] {
        var k :| 0 <= k < |init| && init[k].payload.RouterOutput? && init[k].payload.edges != [];
        assert outputs[k] == init[k];
      }
    }
  }

  /**
   * Router outputs override the static edges: one task per router edge, in order, each on the
   * router's own input; an unknown target fails the whole event.
   */
  lemma RouterDecision(task: Task, g: ComputeGraph, ctx: Result<InvocationCtx, Error>,
                       outputs: Result<seq<Output>, Error>, nextReduction: Result<Option<ReduceTask>, Error>)
    requires ctx.Ok? && task.outcome != Failure && outputs.Ok?
    requires RouterEdges(outputs.value) != []
    ensures var r := TaskFinishedDecision(task, g, ctx, outputs, nextReduction);
            var edges := RouterEdges(outputs.value);
            && (r.Err? <==> exists k :: 0 <= k < |edges| && edges[k] !in g.nodes)
            && (r.Err? ==> r.error == ComputeNodeNotFound(edges[FirstUnknown(edges, g.nodes)]))
            && (r.Ok? ==>
                  && |r.value.tasks| == |edges|
                  && (forall k :: 0 <= k < |edges| ==>
                        r.value.tasks[k] == g.nodes[edges[k]].CreateTask(task.namespace, task.computeGraphName,
                                                                         task.invocationId, task.inputKey))
                  && r.value.newReductionTasks == [] && r.value.processedReductionTasks == []
                  && !r.value.invocationFinished)
  {
  }

  /** With router outputs, neither the static edges nor the reduction queue affect the decision. */
  lemma RouterIgnoresEdgesAndQueue(task: Task, g1: ComputeGraph, g2: ComputeGraph, ctx: Result<InvocationCtx, Error>,
                                   outputs: Result<seq<Output>, Error>,
                                   q1: Result<Option<ReduceTask>, Error>, q2: Result<Option<ReduceTask>, Error>)
    requires g1.nodes == g2.nodes
    requires ctx.Ok? && task.outcome != Failure && outputs.Ok?
    requires RouterEdges(outputs.value) != []
    ensures TaskFinishedDecision(task, g1, ctx, outputs, q1) == TaskFinishedDecision(task, g2, ctx, outputs, q2)
  {
  }

  /**
   * A finished reducer task drains the head of the reduction queue: one new task on the same
   * reducer reading the head's output, and the head's key reported as processed.
   */
  lemma ReducerContinuation(task: Task, g: ComputeGraph, ctx: Result<InvocationCtx, Error>,
                            outputs: Result<seq<Output>, Error>, head: ReduceTask)
    requires ctx.Ok? && task.outcome != Failure && outputs.Ok?
    requires RouterEdges(outputs.value) == []
    requires IsReducerFn(g, task.computeFnName)
    ensures var r := TaskFinishedDecision(task, g, ctx, outputs, Ok(Some(head)));
            && r.Ok?
            && r.value.tasks == [g.nodes[task.computeFnName].CreateTask(task.namespace, task.computeGraphName,
                                                                        task.invocationId, head.taskOutputKey)]
            && r.value.tasks[0].computeFnName == g.nodes[task.computeFnName].FnName()
            && r.value.newReductionTasks == []
            && r.value.processedReductionTasks == [head.Key()]
            && !r.value.invocationFinished
  {
  }

  /**
   * Only the queue head is ever consumed, only by a reducer, and consuming it yields exactly
   * one task that reads the head's output.
   */
  lemma ProcessedIsQueueHead(task: Task, g: ComputeGraph, ctx: Result<InvocationCtx, Error>,
                             outputs: Result<seq<Output>, Error>, nextReduction: Result<Option<ReduceTask>, Error>)
    requires TaskFinishedDecision(task, g, ctx, outputs, nextReduction).Ok?
    requires TaskFinishedDecision(task, g, ctx, outputs, nextReduction).value.processedReductionTasks != []
    ensures var r := TaskFinishedDecision(task, g, ctx, outputs, nextReduction).value;
            && IsReducerFn(g, task.computeFnName)
            && nextReduction.Ok? && nextReduction.value.Some?
            && r.processedReductionTasks == [nextReduction.value.value.Key()]
            && |r.tasks| == 1 && r.tasks[0].inputKey == nextReduction.value.value.taskOutputKey
            && r.newReductionTasks == []
  {
  }

  /** The reduction queue is read only for reducer tasks: for any other task it cannot matter. */
  lemma QueueReadOnlyByReducers(task: Task, g: ComputeGraph, ctx: Result<InvocationCtx, Error>,
                                outputs: Result<seq<Output>, Error>,
                                q1: Result<Option<ReduceTask>, Error>, q2: Result<Option<ReduceTask>, Error>)
    requires !IsReducerFn(g, task.computeFnName)
    ensures TaskFinishedDecision(task, g, ctx, outputs, q1) == TaskFinishedDecision(task, g, ctx, outputs, q2)
  {
  }

  /**
   * A task on a node without declared edges: with nothing outstanding the invocation is
   * finished; with tasks still outstanding the source unwraps the missing edges and fails.
   */
  lemma TerminalLeaf(task: Task, g: ComputeGraph, ctx: Result<InvocationCtx, Error>,
                     outputs: Result<seq<Output>, Error>, nextReduction: Result<Option<ReduceTask>, Error>)
    requires ctx.Ok? && task.outcome != Failure && outputs.Ok?
    requires RouterEdges(outputs.value) == []
    requires !IsReducerFn(g, task.computeFnName) || nextReduction == Ok(None)
    requires task.computeFnName !in g.edges
    ensures var r := TaskFinishedDecision(task, g, ctx, outputs, nextReduction);
            && (ctx.value.outstandingTasks == 0 ==> r == Ok(Record(task, [], [], [], true)))
            && (ctx.value.outstandingTasks > 0 ==> r == Err(MissingEdges(task.computeFnName)))
  {
  }

  /** The static fan-out rung: the fan-out plan, nothing processed and the invocation not finished. */
  lemma FanOutDecision(task: Task, g: ComputeGraph, ctx: Result<InvocationCtx, Error>,
                       outputs: Result<seq<Output>, Error>, nextReduction: Result<Option<ReduceTask>, Error>)
    requires ctx.Ok? && task.outcome != Failure && outputs.Ok?
    requires RouterEdges(outputs.value) == []
    requires !IsReducerFn(g, task.computeFnName) || nextReduction == Ok(None)
    requires task.computeFnName in g.edges
    ensures var r := TaskFinishedDecision(task, g, ctx, outputs, nextReduction);
            var plan := FanOut(task, g, g.edges[task.computeFnName], outputs.value);
            && (plan.Err? ==> r == Err(plan.error))
            && (plan.Ok? ==> r == Ok(Record(task, plan.value.tasks, plan.value.reductions, [], false)))
  {
  }

  /**
   * An invocation is declared finished only when nothing is outstanding, and a finishing
   * decision creates, queues and consumes nothing.
   */
  lemma FinishedOnlyWhenNothingOutstanding(task: Task, g: ComputeGraph, ctx: Result<InvocationCtx, Error>,
                                           outputs: Result<seq<Output>, Error>,
                                           nextReduction: Result<Option<ReduceTask>, Error>)
    requires TaskFinishedDecision(task, g, ctx, outputs, nextReduction).Ok?
    requires TaskFinishedDecision(task, g, ctx, outputs, nextReduction).value.invocationFinished
    ensures ctx.Ok? && ctx.value.outstandingTasks == 0
    ensures var r := TaskFinishedDecision(task, g, ctx, outputs, nextReduction).value;
            r.tasks == [] && r.newReductionTasks == [] && r.processedReductionTasks == []
  {
  }
}
