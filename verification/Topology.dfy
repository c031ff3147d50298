/** The workflow graph and how it is stepped (graph/topology.py, graph/compat.py). */
module Topology {
  import opened Prelude
  import LoopPolicy

  datatype Node =
    | Dispatch | Intake | Classify | Route | Research | Observe | BuildContext | Obligations | DoneContract
    | Plan | Policy | Approval | WorkspacePrepare | Execute | Review | QaPlan | QaExecute | QaReview
    | Repair | Acceptance | Publish | PostPublishVerify | Finalize | End
  {
    predicate IsStage() { !Dispatch? && !End? }
  }

  /** `PIPELINE_NODE_ORDER`, which is also `PIPELINE_ENTRY_POINTS`. */
  const PIPELINE: seq<Node> :=
    [Intake, Classify, Route, Research, Observe, BuildContext, Obligations, DoneContract, Plan, Policy, Approval,
     WorkspacePrepare, Execute, Review, QaPlan, QaExecute, QaReview, Repair, Acceptance, Publish,
     PostPublishVerify, Finalize]

  lemma PipelineIsEveryStage(n: Node)
    ensures n in PIPELINE <==> n.IsStage()
  {
    assert [PIPELINE[0], PIPELINE[1], PIPELINE[2], PIPELINE[3], PIPELINE[4], PIPELINE[5], PIPELINE[6], PIPELINE[7],
            PIPELINE[8], PIPELINE[9], PIPELINE[10]] == PIPELINE[..11];
  }

  // ----- the edge relation every run follows -----

  /** The one unconditional edge out of a node. */
  function Straight(n: Node): Option<Node> {
    match n
    case Intake => Some(Classify)
    case Classify => Some(Route)
    case BuildContext => Some(Obligations)
    case Obligations => Some(DoneContract)
    case DoneContract => Some(Plan)
    case Plan => Some(Policy)
    case WorkspacePrepare => Some(Execute)
    case QaPlan => Some(QaExecute)
    case QaExecute => Some(QaReview)
    case Repair => Some(Review)
    case Publish => Some(PostPublishVerify)
    case Finalize => Some(End)
    case _ => None
  }

  /** What a node's router may choose from. */
  function Choices(n: Node): set<Node> {
    match n
    case Dispatch => set m: Node | m.IsStage()
    case Route => {Research, Observe, BuildContext}
    case Research => {Observe, BuildContext, Finalize}
    case Observe => {Research, BuildContext, Finalize}
    case Policy => {Approval, WorkspacePrepare, Finalize}
    case Approval => {WorkspacePrepare, Finalize}
    case Execute => {Review}
    case Review => {Execute, QaPlan, Repair, Finalize}
    case QaReview => {Acceptance, Repair, Finalize, Research, Observe, BuildContext, Obligations, Plan}
    case Acceptance => {Publish, Finalize, Research, Observe, BuildContext, Obligations, Plan}
    case PostPublishVerify => {Repair, Finalize}
    case _ => {}
  }

  predicate Wired(a: Node, b: Node) {
    b in Choices(a) || Straight(a) == Some(b)
  }

  /** Acceptance is the only way into publish, apart from the dispatch of a resumed run. */
  lemma OnlyAcceptanceLeadsToPublish(a: Node)
    ensures Wired(a, Publish) <==> a in {Acceptance, Dispatch}
  {
  }

  function NodeOf(t: LoopPolicy.Target): Option<Node> {
    match t
    case ToContinue => None
    case ToResearch => Some(Research)
    case ToObserve => Some(Observe)
    case ToBuildContext => Some(BuildContext)
    case ToObligations => Some(Obligations)
    case ToPlan => Some(Plan)
    case ToExecute => Some(Execute)
    case ToVerify => None
    case ToFinalize => Some(Finalize)
  }

  /** Wherever the loop policy may send the workflow, both stages that ask it have an edge there. */
  lemma ReentryTargetsAreWired(source: string, t: LoopPolicy.Trigger, prior: seq<LoopPolicy.Decision>,
                               b: LoopPolicy.Budget, base: LoopPolicy.Lifecycle.Facts,
                               evaluate: LoopPolicy.Lifecycle.Evaluator)
    ensures var d := LoopPolicy.Evaluate(source, t, prior, b, base, evaluate);
            && (d.target.ToContinue? <==> t.NoTrigger?)
            && (NodeOf(d.target).Some? ==>
                  Wired(QaReview, NodeOf(d.target).value) && Wired(Acceptance, NodeOf(d.target).value))
            && (d.automatic ==> NodeOf(d.target).Some? && NodeOf(d.target) != Some(Finalize))
            && (NodeOf(d.target).None? ==> d.target.ToContinue?)
  {
  }

  // ----- the graph object -----

  type Action<!S> = S -> S
  type Router<!S> = S -> Node

  class StateGraph<S> {
    var nodes: map<Node, Action<S>>
    var edges: map<Node, Node>
    var conditionalEdges: map<Node, (Router<S>, map<Node, Node>)>
    var entryPoint: Option<Node>

    constructor ()
      ensures nodes == map[] && edges == map[] && conditionalEdges == map[] && entryPoint == None
    {
      nodes, edges, conditionalEdges, entryPoint := map[], map[], map[], None;
    }

    method AddNode(name: Node, action: Action<S>)
      modifies this`nodes
      ensures nodes == old(nodes)[name := action]
    {
      nodes := nodes[name := action];
    }

    method SetEntryPoint(name: Node)
      modifies this`entryPoint
      ensures entryPoint == Some(name)
    {
      entryPoint := Some(name);
    }

    method AddEdge(source: Node, target: Node)
      modifies this`edges
      ensures edges == old(edges)[source := target]
    {
      edges := edges[source := target];
    }

    method AddConditionalEdges(source: Node, router: Router<S>, mapping: map<Node, Node>)
      modifies this`conditionalEdges
      ensures conditionalEdges == old(conditionalEdges)[source := (router, mapping)]
    {
      conditionalEdges := conditionalEdges[source := (router, mapping)];
    }

    ghost predicate HasStages(stages: map<Node, Action<S>>)
      reads this`nodes
    {
      && (forall n :: n in nodes <==> n != End)
      && (forall n :: n in nodes ==> n in stages && nodes[n] == stages[n])
    }

    ghost predicate HasBranches(routers: map<Node, Router<S>>, wired: set<Node>)
      reads this`conditionalEdges
    {
      && conditionalEdges.Keys == wired
      && (forall n :: n in conditionalEdges ==> n in routers && conditionalEdges[n] == Branch(routers, n))
    }

    /** This graph is the workflow graph over the given stages and routers. */
    ghost predicate IsWorkflow(stages: map<Node, Action<S>>, routers: map<Node, Router<S>>)
      reads this
    {
      entryPoint == Some(Dispatch) && HasStages(stages) && edges == EDGES && HasBranches(routers, BRANCHING)
    }
  }

  /** `{name: name for name in names}` */
  function Same(names: set<Node>): map<Node, Node> {
    map n | n in names :: n
  }

  ghost predicate Complete<S>(stages: map<Node, Action<S>>, routers: map<Node, Router<S>>) {
    (forall n :: n != End ==> n in stages) && (forall n :: n in BRANCHING ==> n in routers)
  }

  method AddNodes<S>(graph: StateGraph<S>, stages: map<Node, Action<S>>)
    requires graph.nodes == map[] && forall n :: n != End ==> n in stages
    modifies graph`nodes
    ensures graph.HasStages(stages)
  {
    graph.AddNode(Dispatch, stages[Dispatch]);
    AddStages(graph, stages, PIPELINE);
    forall n ensures n in PIPELINE <==> n.IsStage() { PipelineIsEveryStage(n); }
  }

  method AddStages<S>(graph: StateGraph<S>, stages: map<Node, Action<S>>, order: seq<Node>)
    requires forall n :: n in order ==> n in stages
    requires graph.nodes.Keys == {Dispatch} && Dispatch in stages && graph.nodes[Dispatch] == stages[Dispatch]
    modifies graph`nodes
    ensures forall n :: n in graph.nodes <==> n == Dispatch || n in order
    ensures forall n :: n in graph.nodes ==> n in stages && graph.nodes[n] == stages[n]
  {
    for i := 0 to |order|
      invariant forall n :: n in graph.nodes <==> n == Dispatch || n in order[..i]
      invariant forall n :: n in graph.nodes ==> n in stages && graph.nodes[n] == stages[n]
    {
      assert order[..i + 1] == order[..i] + [order[i]];
      graph.AddNode(order[i], stages[order[i]]);
    }
    assert order[..|order|] == order;
  }

  /** The unconditional edges, as the graph stores them. */
  const EDGES: map<Node, Node> :=
    map[Intake := Classify, Classify := Route, BuildContext := Obligations, Obligations := DoneContract,
        DoneContract := Plan, Plan := Policy, WorkspacePrepare := Execute, QaPlan := QaExecute,
        QaExecute := QaReview, Repair := Review, Publish := PostPublishVerify, Finalize := End]

  lemma EdgesAreStraight(n: Node)
    ensures n in EDGES <==> Straight(n).Some?
    ensures n in EDGES ==> Straight(n) == Some(EDGES[n])
  {
  }

  method AddEdges<S>(graph: StateGraph<S>)
    requires graph.edges == map[]
    modifies graph`edges
    ensures graph.edges == EDGES
  {
    graph.AddEdge(Intake, Classify);
    graph.AddEdge(Classify, Route);
    graph.AddEdge(BuildContext, Obligations);
    graph.AddEdge(Obligations, DoneContract);
    graph.AddEdge(DoneContract, Plan);
    graph.AddEdge(Plan, Policy);
    graph.AddEdge(WorkspacePrepare, Execute);
    graph.AddEdge(QaPlan, QaExecute);
    graph.AddEdge(QaExecute, QaReview);
    graph.AddEdge(Repair, Review);
    graph.AddEdge(Publish, PostPublishVerify);
    graph.AddEdge(Finalize, End);
  }

  /** A router together with what it may choose from. */
  function Branch<S>(routers: map<Node, Router<S>>, n: Node): (Router<S>, map<Node, Node>)
    requires n in routers
  {
    (routers[n], Same(Choices(n)))
  }

  const BRANCHING: set<Node> :=
    {Dispatch, Route, Research, Observe, Policy, Approval, Execute, Review, QaReview, Acceptance, PostPublishVerify}

  lemma BranchingHasChoices(n: Node)
    ensures n in BRANCHING <==> Choices(n) != {}
  {
    assert n.Dispatch? ==> Intake in Choices(n);
    assert n in {Route, Research, Observe} ==> BuildContext in Choices(n);
    assert n in {Research, Policy, Approval, Review, QaReview, Acceptance, PostPublishVerify} ==> Finalize in Choices(n);
    assert n.Execute? ==> Review in Choices(n);
  }

  method AddChoices<S>(graph: StateGraph<S>, routers: map<Node, Router<S>>)
    requires graph.conditionalEdges == map[] && forall n :: n in BRANCHING ==> n in routers
    modifies graph`conditionalEdges
    ensures graph.HasBranches(routers, BRANCHING)
  {
    AddBranch(graph, routers, Dispatch, {});
    AddBranch(graph, routers, Route, {Dispatch});
    AddBranch(graph, routers, Research, {Dispatch, Route});
    AddBranch(graph, routers, Observe, {Dispatch, Route, Research});
    AddBranch(graph, routers, Policy, {Dispatch, Route, Research, Observe});
    AddBranch(graph, routers, Approval, {Dispatch, Route, Research, Observe, Policy});
    AddBranch(graph, routers, Execute, {Dispatch, Route, Research, Observe, Policy, Approval});
    AddLateChoices(graph, routers);
  }

  method AddLateChoices<S>(graph: StateGraph<S>, routers: map<Node, Router<S>>)
    requires graph.HasBranches(routers, {Dispatch, Route, Research, Observe, Policy, Approval, Execute})
    requires forall n :: n in BRANCHING ==> n in routers
    modifies graph`conditionalEdges
    ensures graph.HasBranches(routers, BRANCHING)
  {
    ghost var early := {Dispatch, Route, Research, Observe, Policy, Approval, Execute};
    AddBranch(graph, routers, Review, early);
    AddBranch(graph, routers, QaReview, early + {Review});
    AddBranch(graph, routers, Acceptance, early + {Review, QaReview});
    AddBranch(graph, routers, PostPublishVerify, early + {Review, QaReview, Acceptance});
    assert early + {Review, QaReview, Acceptance} + {PostPublishVerify} == BRANCHING;
  }

  method AddBranch<S>(graph: StateGraph<S>, routers: map<Node, Router<S>>, n: Node, ghost wired: set<Node>)
    requires n in routers && graph.HasBranches(routers, wired)
    modifies graph`conditionalEdges
    ensures graph.HasBranches(routers, wired + {n})
  {
    graph.AddConditionalEdges(n, routers[n], Same(Choices(n)));
  }

  /** `build_workflow_graph`: entry point and `wire_workflow_graph`. */
  method BuildWorkflowGraph<S>(stages: map<Node, Action<S>>, routers: map<Node, Router<S>>)
    returns (graph: StateGraph<S>)
    requires Complete(stages, routers)
    ensures fresh(graph) && graph.IsWorkflow(stages, routers)
  {
    graph := new StateGraph<S>();
    graph.SetEntryPoint(Dispatch);
    AddNodes(graph, stages);
    AddEdges(graph);
    AddChoices(graph, routers);
  }

  // ----- stepping -----

  datatype Invocation<S> =
    | Finished(state: S, path: seq<Node>)
    | NoEntryPoint
    | MissingKey(path: seq<Node>)
    | StillRunning(state: S, path: seq<Node>)

  /** A path of stages, each followed by a wired successor. */
  ghost predicate WiredPath(path: seq<Node>) {
    forall i, j :: 0 <= i < |path| && j == i + 1 < |path| ==> Wired(path[i], path[j])
  }

  /** The state after the stages of `path` have run in order. */
  function Threaded<S>(stages: map<Node, Action<S>>, initial: S, path: seq<Node>): S {
    if path == [] then initial else
      var s, n := Threaded(stages, initial, path[..|path| - 1]), path[|path| - 1];
      if n in stages then stages[n](s) else s
  }

  /** Where the graph goes from `n` in a state: the router's choice if it has a mapping, the edge, or
      the end. */
  function Successor<S>(routers: map<Node, Router<S>>, n: Node, s: S): Option<Node> {
    if n in BRANCHING && n in routers then if routers[n](s) in Choices(n) then Some(routers[n](s)) else None
    else if Straight(n).Some? then Straight(n) else Some(End)
  }

  /** Each stage of the path is where the graph goes from the one before, in the state threaded so
      far; only the last may be the end. */
  ghost predicate Ran<S>(stages: map<Node, Action<S>>, routers: map<Node, Router<S>>, initial: S, path: seq<Node>) {
    && path != [] && path[0] == Dispatch
    && forall i :: 0 <= i < |path| - 1 ==> GoesOn(stages, routers, initial, path, i)
  }

  ghost predicate GoesOn<S>(stages: map<Node, Action<S>>, routers: map<Node, Router<S>>, initial: S, path: seq<Node>,
                            i: nat)
    requires i + 1 < |path|
  {
    path[i] != End && Successor(routers, path[i], Threaded(stages, initial, path[..i + 1])) == Some(path[i + 1])
  }

  lemma SuccessorsAreWired<S>(routers: map<Node, Router<S>>, n: Node, s: S)
    requires n != End && (forall m :: m in BRANCHING ==> m in routers) && Successor(routers, n, s).Some?
    ensures Wired(n, Successor(routers, n, s).value)
  {
    NodesHaveSuccessors(n);
    BranchingHasChoices(n);
  }

  /** The part of a turn that looks for the next stage: `None` is the KeyError for a choice outside the
      router's mapping. */
  method Choose<S>(graph: StateGraph<S>, node: Node, state: S, ghost stages: map<Node, Action<S>>,
                   routers: map<Node, Router<S>>)
    returns (next: Option<Node>)
    requires Complete(stages, routers) && graph.IsWorkflow(stages, routers)
    ensures next == Successor(routers, node, state)
  {
    hide Straight, Choices, Same;
    EdgesAreStraight(node);
    SameKeys(Choices(node));
    if node in graph.conditionalEdges {
      var (router, mapping) := graph.conditionalEdges[node];
      var selected := router(state);
      return if selected in mapping then Some(mapping[selected]) else None;
    }
    return Some(if node in graph.edges then graph.edges[node] else End);
  }

  /** `ainvoke`, cut off after `limit` stages. The path lists every stage that ran and the one that
      comes next. */
  method Invoke<S>(graph: StateGraph<S>, initial: S, limit: nat, stages: map<Node, Action<S>>,
                   routers: map<Node, Router<S>>)
    returns (r: Invocation<S>)
    requires Complete(stages, routers) && graph.IsWorkflow(stages, routers)
    ensures !r.NoEntryPoint? && r.path != [] && Ran(stages, routers, initial, r.path) && WiredPath(r.path)
    ensures r.Finished? || r.StillRunning? ==> r.state == Threaded(stages, initial, r.path[..|r.path| - 1])
    ensures r.Finished? <==> r.path[|r.path| - 1] == End
    ensures r.Finished? ==> |r.path| >= 2 && r.path[|r.path| - 2] == Finalize
    ensures r.MissingKey? ==> Successor(routers, r.path[|r.path| - 1], Threaded(stages, initial, r.path)).None?
    ensures r.StillRunning? ==> |r.path| == limit + 1
  {
    hide Straight, Choices, Same, Ran, WiredPath, Wired, Successor;
    StartsAtDispatch(stages, routers, initial);
    if graph.entryPoint.None? { return NoEntryPoint; }
    var state, node := initial, graph.entryPoint.value;
    var path := [node];
    while node != End && |path| <= limit
      invariant path != [] && Ran(stages, routers, initial, path) && WiredPath(path)
      invariant path[|path| - 1] == node && |path| <= limit + 1
      invariant state == Threaded(stages, initial, path[..|path| - 1])
      invariant node == End ==> |path| >= 2 && path[|path| - 2] == Finalize
      decreases limit + 1 - |path|
    {
      state := graph.nodes[node](state);
      assert state == Threaded(stages, initial, path);
      var chosen := Choose(graph, node, state, stages, routers);
      if chosen.None? { return MissingKey(path); }
      var next := chosen.value;
      SuccessorsAreWired(routers, node, state);
      OnlyFinalizeEnds(node, next);
      PathGoesOn(stages, routers, initial, path, next);
      assert (path + [next])[..|path + [next]| - 1] == path;
      path := path + [next];
      node := next;
    }
    return if node == End then Finished(state, path) else StillRunning(state, path);
  }

  lemma StartsAtDispatch<S>(stages: map<Node, Action<S>>, routers: map<Node, Router<S>>, initial: S)
    ensures Ran(stages, routers, initial, [Dispatch]) && WiredPath([Dispatch])
    ensures Threaded(stages, initial, [Dispatch][..0]) == initial
  {
  }

  lemma PathGoesOn<S>(stages: map<Node, Action<S>>, routers: map<Node, Router<S>>, initial: S, path: seq<Node>,
                      next: Node)
    requires path != [] && Ran(stages, routers, initial, path) && WiredPath(path) && path[|path| - 1] != End
    requires Successor(routers, path[|path| - 1], Threaded(stages, initial, path)) == Some(next)
    requires Wired(path[|path| - 1], next)
    ensures Ran(stages, routers, initial, path + [next]) && WiredPath(path + [next])
  {
    hide Wired, Successor, Threaded;
    var longer := path + [next];
    assert longer[0] == path[0];
    forall i | 0 <= i < |longer| - 1 ensures GoesOn(stages, routers, initial, longer, i) {
      if i + 1 == |path| {
        assert longer[..i + 1] == path;
      } else {
        assert GoesOn(stages, routers, initial, path, i) && longer[..i + 1] == path[..i + 1];
      }
    }
  }

  lemma SameKeys(names: set<Node>)
    ensures Same(names).Keys == names && forall n :: n in names ==> Same(names)[n] == n
  {
  }

  lemma NodesHaveSuccessors(n: Node)
    requires n != End
    ensures Straight(n).Some? || Choices(n) != {}
  {
    BranchingHasChoices(n);
  }

  lemma OnlyFinalizeEnds(a: Node, b: Node)
    requires Wired(a, b)
    ensures b != Dispatch && (b == End <==> a == Finalize)
  {
  }
}
