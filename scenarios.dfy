/**
 * Worked examples of the decision function on small graphs: a plain fan-out, a router that picks
 * one of its successors, a terminal leaf, and two branches that both feed a reducer.
 */
module Scenarios {
  import opened Wrappers
  import opened DataModel
  import opened TaskCreator
  import opened TaskCreatorProperties

  const Ns := "ns"
  const Inv := "inv-1"

  /** A -> [B, C], nothing reduces. */
  function DiamondGraph(): ComputeGraph {
    ComputeGraph(Ns, "g", Compute("A", false),
                 map["A" := Compute("A", false), "B" := Compute("B", false), "C" := Compute("C", false)],
                 map["A" := ["B", "C"]])
  }

  function Finished(fn: Name, id: string): Task {
    Task(id, Ns, "g", fn, Inv, InvocationInput(Inv), Success)
  }

  /** Invoking the graph starts the start function; finishing it fans out to both successors. */
  lemma ScenarioFanOut()
    ensures var r := HandleInvokeComputeGraph(InvokeComputeGraphEvent(Ns, "g", Inv), Ok(Some(DiamondGraph())));
            r.Ok? && |r.value.tasks| == 1 && r.value.tasks[0].computeFnName == "A"
    ensures var out := Output("o1", "A", FnOutput("d1"));
            var r := TaskFinishedDecision(Finished("A", "t1"), DiamondGraph(), Ok(InvocationCtx(1)),
                                          Ok([out]), Ok(None));
            && r.Ok?
            && r.value.tasks == [CreatedTask(Ns, "g", Inv, "B", out.Key(Inv)),
                                 CreatedTask(Ns, "g", Inv, "C", out.Key(Inv))]
            && r.value.newReductionTasks == []
            && !r.value.invocationFinished
  {
    var out := Output("o1", "A", FnOutput("d1"));
    var g := DiamondGraph();
    var task := Finished("A", "t1");
    assert RouterEdges([out]) == [] by {
      assert [out][..0] == [];
    }
    PairsAt(["B", "C"], [out], 0, 0);
    PairsAt(["B", "C"], [out], 1, 0);
    PairsLength(["B", "C"], [out]);
    var items := FanOutItems(task, g, ["B", "C"], [out]);
    assert items == [Spawn(CreatedTask(Ns, "g", Inv, "B", out.Key(Inv))),
                     Spawn(CreatedTask(Ns, "g", Inv, "C", out.Key(Inv)))];
    assert items[..1] == [items[0]] && items[..1][..0] == [];
    assert Spawned(items[..1]) == Spawned([]) + [items[0].task];
    assert Spawned(items) == Spawned(items[..1]) + [items[1].task];
    assert Deferred(items[..1]) == Deferred([]);
    assert Deferred(items) == Deferred(items[..1]);
    FanOutFound(task, g, ["B", "C"], [out]);
  }

  /** X routes to Y only: its static edge to Z is ignored. */
  lemma ScenarioRouter()
    ensures var g := ComputeGraph(Ns, "g", Router("X"),
                                  map["X" := Router("X"), "Y" := Compute("Y", false), "Z" := Compute("Z", false)],
                                  map["X" := ["Z"]]);
            var r := TaskFinishedDecision(Finished("X", "t1"), g, Ok(InvocationCtx(1)),
                                          Ok([Output("o1", "X", RouterOutput(["Y"]))]), Ok(None));
            r == Ok(Record(Finished("X", "t1"), [CreatedTask(Ns, "g", Inv, "Y", InvocationInput(Inv))], [], [], false))
  {
    var out := Output("o1", "X", RouterOutput(["Y"]));
    assert RouterEdges([out]) == ["Y"] by {
      assert [out][..0] == [];
    }
    var g := ComputeGraph(Ns, "g", Router("X"),
                          map["X" := Router("X"), "Y" := Compute("Y", false), "Z" := Compute("Z", false)],
                          map["X" := ["Z"]]);
    assert ["Y"][1..] == [];
    assert FirstUnknown(["Y"], g.nodes) == 1;
    var routed := RouterTasks(Finished("X", "t1"), g, ["Y"]);
    assert routed.Ok? && |routed.value| == 1;
    assert routed.value[0] == CreatedTask(Ns, "g", Inv, "Y", InvocationInput(Inv));
    assert routed.value == [CreatedTask(Ns, "g", Inv, "Y", InvocationInput(Inv))];
  }

  /** A finished task on B (no edges) finishes the invocation only when nothing is outstanding. */
  lemma ScenarioTerminalLeaf()
    ensures TaskFinishedDecision(Finished("B", "t2"), DiamondGraph(), Ok(InvocationCtx(0)), Ok([]), Ok(None))
            == Ok(Record(Finished("B", "t2"), [], [], [], true))
    ensures TaskFinishedDecision(Finished("B", "t2"), DiamondGraph(), Ok(InvocationCtx(3)), Ok([]), Ok(None))
            == Err(MissingEdges("B"))
  {
  }

  /** B -> [R] and C -> [R], with R a reducer. */
  function ReducerGraph(): ComputeGraph {
    ComputeGraph(Ns, "g", Compute("A", false),
                 map["A" := Compute("A", false), "B" := Compute("B", false),
                     "C" := Compute("C", false), "R" := Compute("R", true)],
                 map["A" := ["B", "C"], "B" := ["R"], "C" := ["R"]])
  }

  /**
   * Each finished branch creates its own reducer task: deferral only looks at tasks created
   * earlier in the same event, so two events feeding R create two tasks on R.
   */
  lemma ScenarioTwoBranchesIntoReducer()
    ensures var outB := Output("ob", "B", FnOutput("db"));
            TaskFinishedDecision(Finished("B", "tb"), ReducerGraph(), Ok(InvocationCtx(1)), Ok([outB]), Ok(None))
            == Ok(Record(Finished("B", "tb"), [CreatedTask(Ns, "g", Inv, "R", outB.Key(Inv))], [], [], false))
    ensures var outC := Output("oc", "C", FnOutput("dc"));
            TaskFinishedDecision(Finished("C", "tc"), ReducerGraph(), Ok(InvocationCtx(1)), Ok([outC]), Ok(None))
            == Ok(Record(Finished("C", "tc"), [CreatedTask(Ns, "g", Inv, "R", outC.Key(Inv))], [], [], false))
  {
    var outB := Output("ob", "B", FnOutput("db"));
    var outC := Output("oc", "C", FnOutput("dc"));
    assert RouterEdges([outB]) == [] by {
      assert [outB][..0] == [];
    }
    assert RouterEdges([outC]) == [] by {
      assert [outC][..0] == [];
    }
    FanOutIntoReducer(Finished("B", "tb"), ReducerGraph(), "R", [outB]);
    FanOutIntoReducer(Finished("C", "tc"), ReducerGraph(), "R", [outC]);
  }

  /** One event with two outputs for R creates one task on R and queues the second output under task "tb". */
  lemma ScenarioTwoOutputsIntoReducer()
    ensures var outs := [Output("o1", "B", FnOutput("d1")), Output("o2", "B", FnOutput("d2"))];
            var r := TaskFinishedDecision(Finished("B", "tb"), ReducerGraph(), Ok(InvocationCtx(1)), Ok(outs), Ok(None));
            && r.Ok?
            && r.value.tasks == [CreatedTask(Ns, "g", Inv, "R", outs[0].Key(Inv))]
            && r.value.newReductionTasks == [ReduceTask(Ns, "g", Inv, "R", "tb", outs[1].Key(Inv))]
  {
    var outs := [Output("o1", "B", FnOutput("d1")), Output("o2", "B", FnOutput("d2"))];
    assert RouterEdges(outs) == [] by {
      assert outs[..1][..0] == [];
      assert RouterEdges(outs[..1]) == [];
    }
    FanOutIntoReducer(Finished("B", "tb"), ReducerGraph(), "R", outs);
  }
}
