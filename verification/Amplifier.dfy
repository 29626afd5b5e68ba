/**
 The amplifier profile: what the static validator accepts, and what every run of
 an accepted workflow is then guaranteed to do.
 */
module Amplifier {
  import opened Graph
  import opened Sets
  import opened Options
  import Kahn
  import Search = ProductSearch

  datatype Outcome = Success | Failure

  /** One transition of a state. `halt` marks the reserved kill switch; `workKind` is absent when unclassified. */
  datatype Transition = Transition(halt: bool, workKind: Option<Role>, target: Name, branches: seq<Name>)

  datatype State = State(terminal: bool, outcome: Option<Outcome>, transitions: seq<Transition>)

  datatype Workflow = Workflow(
    states: map<Name, State>, initial: Name, maxModelSteps: nat, onTimeout: Option<Name>)

  datatype Verdict =
    | Accepted
    | BadBudget | UnknownInitial | BadState(name: Name) | BadTimeout
    | Cyclic | OverBudget | Unverified | NoSuccess

  // ----- the shape rules the graph argument rests on -----

  ghost predicate TransitionOk(w: Workflow, name: Name, t: Transition) {
    if t.halt then t.target == name
    else
      && t.workKind.Some?
      && (name == w.initial ==> t.workKind.value.Deterministic?)
      && t.target in w.states
      && forall b | b in t.branches :: b in w.states
  }

  ghost predicate TransitionsOk(w: Workflow, name: Name, s: State, n: nat)
    requires n <= |s.transitions|
  {
    forall i {:trigger TransitionOk(w, name, s.transitions[i])} | 0 <= i < n :: TransitionOk(w, name, s.transitions[i])
  }

  ghost predicate StateOk(w: Workflow, name: Name, s: State) {
    && (s.terminal ==> s.outcome.Some? && s.transitions == [])
    && TransitionsOk(w, name, s, |s.transitions|)
    && (s.terminal || exists i :: 0 <= i < |s.transitions| && !s.transitions[i].halt)
  }

  ghost predicate TimeoutOk(w: Workflow) {
    w.onTimeout.Some? ==>
      var t := w.onTimeout.value;
      t in w.states && w.states[t].terminal && w.states[t].outcome == Some(Failure)
  }

  ghost predicate ShapeOk(w: Workflow) {
    && 1 <= w.maxModelSteps <= 16
    && w.initial in w.states
    && (forall s | s in w.states :: StateOk(w, s, w.states[s]))
    && TimeoutOk(w)
  }

  predicate IsSuccess(s: State) {
    s.terminal && s.outcome == Some(Success)
  }

  function Wins(w: Workflow): set<Name> {
    set s | s in w.states && IsSuccess(w.states[s])
  }

  // ----- edge extraction -----

  /** A step along transition `t` may do the work of `e` and enter its target: the declared target or any branch. */
  predicate Moves(t: Transition, e: Edge) {
    !t.halt && t.workKind == Some(e.role) && (e.target == t.target || e.target in t.branches)
  }

  function TransitionEdges(t: Transition): seq<Edge> {
    if t.halt || t.workKind.None? then []
    else [Edge(t.target, t.workKind.value)] + BranchEdges(t.branches, t.workKind.value)
  }

  function BranchEdges(branches: seq<Name>, role: Role): (r: seq<Edge>)
    ensures |r| == |branches| && forall i | 0 <= i < |r| :: r[i] == Edge(branches[i], role)
  {
    if branches == [] then [] else [Edge(branches[0], role)] + BranchEdges(branches[1..], role)
  }

  function EdgesUpto(s: State, n: nat): seq<Edge>
    requires n <= |s.transitions|
  {
    if n == 0 then [] else EdgesUpto(s, n - 1) + TransitionEdges(s.transitions[n - 1])
  }

  /** The multigraph the two passes run on: parallel edges kept, halts left out. */
  function GraphOf(w: Workflow): Graph {
    map s | s in w.states :: EdgesUpto(w.states[s], |w.states[s].transitions|)
  }

  lemma TransitionEdgesAreMoves(t: Transition, e: Edge)
    ensures e in TransitionEdges(t) <==> Moves(t, e)
  {
    if Moves(t, e) && e.target != t.target {
      var i :| 0 <= i < |t.branches| && t.branches[i] == e.target;
      assert BranchEdges(t.branches, e.role)[i] == e;
      assert TransitionEdges(t)[i + 1] == e;
    } else if Moves(t, e) {
      assert TransitionEdges(t)[0] == e;
    }
  }

  ghost predicate HasMove(s: State, n: nat, e: Edge)
    requires n <= |s.transitions|
  {
    exists i | 0 <= i < n :: Moves(s.transitions[i], e)
  }

  lemma HasMoveStep(s: State, n: nat, e: Edge)
    requires 0 < n <= |s.transitions|
    ensures HasMove(s, n, e) <==> HasMove(s, n - 1, e) || Moves(s.transitions[n - 1], e)
  {
    if i :| 0 <= i < n && Moves(s.transitions[i], e) {
      assert i < n - 1 ==> HasMove(s, n - 1, e);
    }
  }

  /** The extracted edges are exactly the moves of the state, in both directions. */
  lemma {:induction false} EdgesAreMoves(s: State, n: nat, e: Edge)
    requires n <= |s.transitions|
    ensures e in EdgesUpto(s, n) <==> HasMove(s, n, e)
  {
    if n == 0 {
    } else {
      EdgesAreMoves(s, n - 1, e);
      HasMoveStep(s, n, e);
      TransitionEdgesAreMoves(s.transitions[n - 1], e);
      InConcat(EdgesUpto(s, n - 1), TransitionEdges(s.transitions[n - 1]), e);
    }
  }

  lemma InConcat<T>(a: seq<T>, b: seq<T>, x: T)
    ensures x in a + b <==> x in a || x in b
  {
  }

  /** The edges of `g` are exactly the moves of the workflow. */
  ghost predicate Represents(g: Graph, w: Workflow) {
    && g.Keys == w.states.Keys
    && forall s, e | s in g :: e in g[s] <==> HasMove(w.states[s], |w.states[s].transitions|, e)
  }

  lemma GraphRepresents(w: Workflow)
    ensures Represents(GraphOf(w), w)
  {
    forall s, e | s in w.states ensures e in GraphOf(w)[s] <==> HasMove(w.states[s], |w.states[s].transitions|, e) {
      EdgesAreMoves(w.states[s], |w.states[s].transitions|, e);
    }
  }

  lemma TransitionHasEdge(w: Workflow, name: Name, t: Transition)
    requires TransitionOk(w, name, t)
    ensures TransitionEdges(t) != [] <==> !t.halt
  {
  }

  lemma ConcatIsEmpty<T>(a: seq<T>, b: seq<T>)
    ensures a + b == [] <==> a == [] && b == []
  {
    assert |a + b| == |a| + |b|;
  }

  ghost predicate SomeMoves(s: State, n: nat)
    requires n <= |s.transitions|
  {
    exists i :: 0 <= i < n && !s.transitions[i].halt
  }

  lemma SomeMovesStep(s: State, n: nat)
    requires 0 < n <= |s.transitions|
    ensures SomeMoves(s, n) <==> SomeMoves(s, n - 1) || !s.transitions[n - 1].halt
  {
  }

  lemma {:induction false} SomeEdge(w: Workflow, name: Name, s: State, n: nat)
    requires n <= |s.transitions| && TransitionsOk(w, name, s, n)
    ensures EdgesUpto(s, n) != [] <==> SomeMoves(s, n)
  {
    if n == 0 {
    } else {
      SomeEdge(w, name, s, n - 1);
      TransitionHasEdge(w, name, s.transitions[n - 1]);
      ConcatIsEmpty(EdgesUpto(s, n - 1), TransitionEdges(s.transitions[n - 1]));
      SomeMovesStep(s, n);
    }
  }

  /** The edges of one classified transition, unless a branch is unknown. */
  method AppendEdges(w: Workflow, t: Transition, before: seq<Edge>) returns (ok: bool, edges: seq<Edge>)
    requires !t.halt && t.workKind.Some? && t.target in w.states
    ensures ok <==> forall b | b in t.branches :: b in w.states
    ensures ok ==> edges == before + TransitionEdges(t)
  {
    var role := t.workKind.value;
    edges := before + [Edge(t.target, role)];
    ghost var first := edges;
    var i := 0;
    while i < |t.branches|
      invariant 0 <= i <= |t.branches|
      invariant forall k | 0 <= k < i :: t.branches[k] in w.states
      invariant edges == first + BranchEdges(t.branches[..i], role)
    {
      var target := t.branches[i];
      if target !in w.states {
        ok := false;
        return;
      }
      BranchSnoc(first, t.branches, i, role);
      edges := edges + [Edge(target, role)];
      i := i + 1;
    }
    assert t.branches[..i] == t.branches;
    AllBranches(before, t);
    ok := true;
  }

  lemma AllBranches(before: seq<Edge>, t: Transition)
    requires !t.halt && t.workKind.Some?
    ensures before + [Edge(t.target, t.workKind.value)] + BranchEdges(t.branches, t.workKind.value)
         == before + TransitionEdges(t)
  {
  }

  lemma BranchSnoc(first: seq<Edge>, branches: seq<Name>, i: nat, role: Role)
    requires i < |branches|
    ensures first + BranchEdges(branches[..i], role) + [Edge(branches[i], role)]
         == first + BranchEdges(branches[..i + 1], role)
  {
    var edges := BranchEdges(branches[..i], role);
    assert BranchEdges(branches[..i + 1], role) == edges + [Edge(branches[i], role)];
    assert first + edges + [Edge(branches[i], role)] == first + (edges + [Edge(branches[i], role)]);
  }

  method CheckTransition(w: Workflow, name: Name, t: Transition, before: seq<Edge>) returns (ok: bool, edges: seq<Edge>)
    ensures ok <==> TransitionOk(w, name, t)
    ensures ok ==> edges == before + TransitionEdges(t)
  {
    edges := before;
    if t.halt {
      ok := t.target == name;
    } else if t.workKind.None? || (name == w.initial && !t.workKind.value.Deterministic?) || t.target !in w.states {
      ok := false;
    } else {
      ok, edges := AppendEdges(w, t, before);
    }
  }

  method CheckTransitions(w: Workflow, name: Name, s: State) returns (ok: bool, edges: seq<Edge>)
    ensures ok <==> TransitionsOk(w, name, s, |s.transitions|)
    ensures ok ==> edges == EdgesUpto(s, |s.transitions|)
  {
    edges := [];
    var i := 0;
    while i < |s.transitions|
      invariant 0 <= i <= |s.transitions|
      invariant TransitionsOk(w, name, s, i)
      invariant edges == EdgesUpto(s, i)
    {
      ok, edges := CheckTransition(w, name, s.transitions[i], edges);
      if !ok {
        assert !TransitionOk(w, name, s.transitions[i]);
        return;
      }
      assert EdgesUpto(s, i + 1) == EdgesUpto(s, i) + TransitionEdges(s.transitions[i]);
      i := i + 1;
    }
    ok := true;
  }

  /** Check one state and extract its edges. */
  method CheckState(w: Workflow, name: Name, s: State) returns (ok: bool, edges: seq<Edge>)
    ensures ok <==> StateOk(w, name, s)
    ensures ok ==> edges == EdgesUpto(s, |s.transitions|)
  {
    edges := [];
    if s.terminal && (s.outcome.None? || s.transitions != []) {
      ok := false;
      return;
    }
    ok, edges := CheckTransitions(w, name, s);
    if ok {
      SomeEdge(w, name, s, |s.transitions|);
      ok := s.terminal || edges != [];
    }
  }

  method BuildGraph(w: Workflow) returns (v: Verdict, g: Graph)
    ensures v.Accepted? <==> forall s | s in w.states :: StateOk(w, s, w.states[s])
    ensures v.Accepted? || v.BadState?
    ensures v.Accepted? ==> g == GraphOf(w)
  {
    g := map[];
    v := Accepted;
    var todo := w.states.Keys;
    while todo != {}
      invariant todo <= w.states.Keys && g.Keys == w.states.Keys - todo
      invariant forall s | s in g :: StateOk(w, s, w.states[s]) && g[s] == GraphOf(w)[s]
      decreases todo
    {
      var name :| name in todo;
      var ok, edges := CheckState(w, name, w.states[name]);
      if !ok {
        v := BadState(name);
        return;
      }
      g := g[name := edges];
      todo := todo - {name};
    }
  }

  // ----- the verdict -----

  /** Acceptance, said in terms of the graph and its paths alone. */
  ghost predicate Accepts(w: Workflow) {
    && ShapeOk(w)
    && Acyclic(GraphOf(w))
    && Search.PathsFine(GraphOf(w), w.initial, Wins(w), w.maxModelSteps)
  }

  lemma GraphIsClosed(w: Workflow, g: Graph)
    requires Represents(g, w)
    requires forall s | s in w.states :: StateOk(w, s, w.states[s])
    ensures Closed(g)
  {
    forall s, i | s in g && 0 <= i < |g[s]| ensures g[s][i].target in g {
      var state, e := w.states[s], g[s][i];
      assert e in g[s] && StateOk(w, s, state);
      var k :| 0 <= k < |state.transitions| && Moves(state.transitions[k], e);
      assert TransitionOk(w, s, state.transitions[k]);
    }
  }

  /**
   Exact: accepted if and only if the shape rules hold, the graph has no cycle,
   every path keeps the budget and enters success only verified, and some path
   does. Each rejection by a graph pass names a fact that holds.
   */
  method Validate(w: Workflow) returns (v: Verdict)
    ensures v.Accepted? <==> Accepts(w)
    ensures v.BadBudget? || v.UnknownInitial? || v.BadState? || v.BadTimeout? ==> !ShapeOk(w)
    ensures v.Cyclic? || v.OverBudget? || v.Unverified? || v.NoSuccess? ==> ShapeOk(w)
    ensures v.Cyclic? ==> !Acyclic(GraphOf(w))
    ensures v.OverBudget? ==>
              exists p :: IsWalk(GraphOf(w), w.initial, p) && Search.Generations(p) > w.maxModelSteps
    ensures v.Unverified? ==>
              exists p :: IsWalk(GraphOf(w), w.initial, p) && End(w.initial, p) in Wins(w) && !Search.VerifiedLast(p)
    ensures v.NoSuccess? ==> forall p :: IsWalk(GraphOf(w), w.initial, p) ==> End(w.initial, p) !in Wins(w)
  {
    if !(1 <= w.maxModelSteps <= 16) {
      return BadBudget;
    }
    if w.initial !in w.states {
      return UnknownInitial;
    }
    var graph: Graph;
    v, graph := BuildGraph(w);
    if !v.Accepted? {
      return;
    }
    if w.onTimeout.Some? {
      var t := w.onTimeout.value;
      if !(t in w.states && w.states[t].terminal && w.states[t].outcome == Some(Failure)) {
        return BadTimeout;
      }
    }
    GraphRepresents(w);
    GraphIsClosed(w, graph);
    assert graph.Keys == w.states.Keys && |graph| == |graph.Keys| && |w.states| == |w.states.Keys|;
    var visited := Kahn.CountVisited(graph);
    if visited != |w.states| {
      return Cyclic;
    }
    var finding, _ := Search.Search(graph, w.initial, Wins(w), w.maxModelSteps);
    v := match finding
      case Fine => Accepted
      case OverBudget => OverBudget
      case Unverified => Unverified
      case NoSuccess => NoSuccess;
  }

  // ----- what runs of a workflow do -----

  /** One event of a run: a transition taken into its target or a branch, the workflow timeout, or the kill switch. */
  datatype Event = Take(transition: Transition, target: Name) | Timeout | Halt

  function StateAfter(w: Workflow, run: seq<Event>): Name {
    if run == [] then w.initial
    else match run[|run| - 1]
      case Take(_, target) => target
      case Timeout => if w.onTimeout.Some? then w.onTimeout.value else StateAfter(w, run[..|run| - 1])
      case Halt => StateAfter(w, run[..|run| - 1])
  }

  ghost predicate Enabled(w: Workflow, at: Name, e: Event) {
    at in w.states &&
    match e
    case Take(t, target) => t in w.states[at].transitions && !t.halt && (target == t.target || target in t.branches)
    case Timeout => w.onTimeout.Some? && !w.states[at].terminal
    case Halt => true
  }

  /** Any choice of transitions and branches, with a timeout or a halt at any point; nothing follows a halt. */
  ghost predicate IsRun(w: Workflow, run: seq<Event>) {
    run != [] ==>
      var before := run[..|run| - 1];
      IsRun(w, before) && Halt !in before && Enabled(w, StateAfter(w, before), run[|run| - 1])
  }

  /** The steps of a run that change its state. */
  ghost function Steps(run: seq<Event>): nat {
    if run == [] then 0 else Steps(run[..|run| - 1]) + (if run[|run| - 1].Halt? then 0 else 1)
  }

  predicate Does(e: Event, role: Role) {
    e.Take? && e.transition.workKind == Some(role)
  }

  ghost function ModelSteps(run: seq<Event>): nat {
    if run == [] then 0 else ModelSteps(run[..|run| - 1]) + (if Does(run[|run| - 1], Generative) then 1 else 0)
  }

  /** Event `j` verifies, only human decisions (or the halt) follow, and something was generated before. */
  ghost predicate RunVerifiedBy(run: seq<Event>, j: nat)
    requires j < |run|
  {
    && Does(run[j], Verification)
    && (forall k | j < k < |run| :: Does(run[k], Intent) || run[k].Halt?)
    && exists i :: 0 <= i < j && Does(run[i], Generative)
  }

  ghost predicate RunVerified(run: seq<Event>) {
    exists j | 0 <= j < |run| :: RunVerifiedBy(run, j)
  }

  /** The path in the graph a run follows: one edge per transition taken. */
  ghost function PathOf(run: seq<Event>): seq<Edge> {
    if run == [] then []
    else
      var e, rest := run[|run| - 1], PathOf(run[..|run| - 1]);
      if e.Take? && e.transition.workKind.Some? then rest + [Edge(e.target, e.transition.workKind.value)] else rest
  }

  /** Taking a transition of an accepted shape is following an edge. */
  lemma TakeIsEdge(w: Workflow, g: Graph, at: Name, e: Event)
    requires ShapeOk(w) && Represents(g, w) && e.Take? && Enabled(w, at, e)
    ensures e.transition.workKind.Some?
    ensures Edge(e.target, e.transition.workKind.value) in g[at]
  {
    var i :| 0 <= i < |w.states[at].transitions| && w.states[at].transitions[i] == e.transition;
    assert StateOk(w, at, w.states[at]) && TransitionOk(w, at, w.states[at].transitions[i]);
    assert Moves(w.states[at].transitions[i], Edge(e.target, e.transition.workKind.value));
  }

  ghost predicate Follows(w: Workflow, g: Graph, run: seq<Event>, p: seq<Edge>) {
    && IsWalk(g, w.initial, p)
    && Search.Generations(p) == ModelSteps(run)
    && (Timeout !in run ==> End(w.initial, p) == StateAfter(w, run) && Steps(run) == |p|)
    && (Timeout in run ==>
          && w.onTimeout == Some(StateAfter(w, run)) && Steps(run) == |p| + 1
          && End(w.initial, p) in w.states && !w.states[End(w.initial, p)].terminal)
  }

  lemma {:induction false} RunFollowsGraph(w: Workflow, g: Graph, run: seq<Event>)
    requires ShapeOk(w) && Represents(g, w) && IsRun(w, run)
    ensures Follows(w, g, run, PathOf(run))
  {
    if run == [] {
    } else {
      var n := |run| - 1;
      var before, e := run[..n], run[n];
      assert run == before + [e];
      RunFollowsGraph(w, g, before);
      if e.Take? {
        TakeFollowsGraph(w, g, before, e);
      } else if e.Timeout? {
        assert Timeout !in before;
      }
    }
  }

  lemma RunSnoc(w: Workflow, before: seq<Event>, e: Event)
    requires e.Take? && e.transition.workKind.Some?
    ensures Steps(before + [e]) == Steps(before) + 1 && StateAfter(w, before + [e]) == e.target
    ensures ModelSteps(before + [e]) == ModelSteps(before) + if Does(e, Generative) then 1 else 0
    ensures PathOf(before + [e]) == PathOf(before) + [Edge(e.target, e.transition.workKind.value)]
    ensures Timeout in before + [e] <==> Timeout in before
  {
    assert (before + [e])[..|before|] == before;
  }

  lemma GenerationsSnoc(p: seq<Edge>, edge: Edge)
    ensures Search.Generations(p + [edge]) == Search.Generations(p) + if edge.role.Generative? then 1 else 0
  {
    assert (p + [edge])[..|p|] == p;
  }

  /** The timeout leads to a terminal state, which no transition leaves. */
  lemma NoTakeAfterTimeout(w: Workflow, g: Graph, before: seq<Event>, e: Event)
    requires ShapeOk(w) && e.Take? && Enabled(w, StateAfter(w, before), e) && Follows(w, g, before, PathOf(before))
    ensures Timeout !in before
  {
    var at := StateAfter(w, before);
    assert StateOk(w, at, w.states[at]);
  }

  /** A transition taken adds its edge to the path. */
  lemma TakeFollowsGraph(w: Workflow, g: Graph, before: seq<Event>, e: Event)
    requires ShapeOk(w) && Represents(g, w) && e.Take? && Enabled(w, StateAfter(w, before), e)
    requires Follows(w, g, before, PathOf(before))
    ensures Follows(w, g, before + [e], PathOf(before + [e]))
  {
    var p := PathOf(before);
    NoTakeAfterTimeout(w, g, before, e);
    TakeIsEdge(w, g, StateAfter(w, before), e);
    var edge := Edge(e.target, e.transition.workKind.value);
    RunSnoc(w, before, e);
    GenerationsSnoc(p, edge);
    ExtendWalk(g, w.initial, p, edge);
  }

  /** Only a state with moves is left, so no state a path leaves is terminal. */
  lemma PathAvoidsTerminals(w: Workflow, g: Graph, p: seq<Edge>, i: nat)
    requires ShapeOk(w) && Represents(g, w) && IsWalk(g, w.initial, p) && i < |p|
    ensures At(w.initial, p, i) in w.states && !w.states[At(w.initial, p, i)].terminal
  {
    assert StepAt(g, w.initial, p, i);
    assert StateOk(w, At(w.initial, p, i), w.states[At(w.initial, p, i)]);
  }

  lemma TimeoutRunIsShort(w: Workflow, g: Graph, p: seq<Edge>)
    requires ShapeOk(w) && Represents(g, w) && Closed(g) && Acyclic(g) && IsWalk(g, w.initial, p) && w.onTimeout.Some?
    requires End(w.initial, p) in w.states && !w.states[End(w.initial, p)].terminal
    ensures |p| + 1 < |w.states|
  {
    AcyclicWalkIsShort(g, w.initial, p);
    var states, target := States(w.initial, p), w.onTimeout.value;
    forall i | 0 <= i < |states| ensures states[i] in g.Keys - {target} {
      if i < |p| {
        PathAvoidsTerminals(w, g, p, i);
      }
    }
    DistinctFits(states, g.Keys - {target});
    assert |w.states.Keys| == |w.states|;
  }

  /** A run is verified exactly when its path is, and has generated something exactly when its path has. */
  lemma {:induction false} VerifiedPathVerifiedRun(w: Workflow, g: Graph, run: seq<Event>)
    requires ShapeOk(w) && Represents(g, w) && IsRun(w, run) && Timeout !in run
    ensures Search.VerifiedLast(PathOf(run)) <==> RunVerified(run)
    ensures Search.Generations(PathOf(run)) > 0 <==> Generated(run, |run|)
  {
    if run == [] {
    } else {
      var n := |run| - 1;
      var before, e := run[..n], run[n];
      assert run == before + [e];
      VerifiedPathVerifiedRun(w, g, before);
      RunVerifiedStep(before, e);
      GeneratedStep(before, e);
      if e.Take? {
        TakeIsEdge(w, g, StateAfter(w, before), e);
        PathVerifiedStep(PathOf(before), e);
      }
    }
  }

  lemma PathVerifiedStep(path: seq<Edge>, e: Event)
    requires e.Take? && e.transition.workKind.Some?
    ensures var p := path + [Edge(e.target, e.transition.workKind.value)];
            && (Search.VerifiedLast(p) <==> if Does(e, Verification) then Search.Generations(path) > 0
                                            else Does(e, Intent) && Search.VerifiedLast(path))
            && (Search.Generations(p) > 0 <==> Search.Generations(path) > 0 || Does(e, Generative))
  {
    var edge := Edge(e.target, e.transition.workKind.value);
    assert (path + [edge])[..|path|] == path;
    Search.VerifiedLastStep(path, edge);
    Search.GenerationsPositive(path);
  }

  ghost predicate Generated(run: seq<Event>, n: nat)
    requires n <= |run|
  {
    exists i :: 0 <= i < n && Does(run[i], Generative)
  }

  lemma GeneratedStep(before: seq<Event>, e: Event)
    ensures Generated(before + [e], |before| + 1) <==> Generated(before, |before|) || Does(e, Generative)
  {
    var run := before + [e];
    assert run[|before|] == e && forall i | 0 <= i < |before| :: run[i] == before[i];
  }

  lemma RunVerifiedStep(before: seq<Event>, e: Event)
    ensures RunVerified(before + [e]) <==>
              if Does(e, Verification) then Generated(before, |before|)
              else (Does(e, Intent) || e.Halt?) && RunVerified(before)
  {
    var run, n := before + [e], |before|;
    assert run[n] == e && forall i | 0 <= i < n :: run[i] == before[i];
    if RunVerified(run) {
      var j :| 0 <= j < |run| && RunVerifiedBy(run, j);
      if j < n {
        assert Does(run[n], Intent) || run[n].Halt?;
        assert RunVerifiedBy(before, j);
      }
    }
    if Does(e, Verification) && Generated(before, n) {
      assert RunVerifiedBy(run, n);
    }
    if (Does(e, Intent) || e.Halt?) && RunVerified(before) {
      ExtendVerified(before, e);
    }
  }

  lemma ExtendVerified(before: seq<Event>, e: Event)
    requires RunVerified(before) && (Does(e, Intent) || e.Halt?)
    ensures RunVerified(before + [e])
  {
    var run := before + [e];
    var j :| 0 <= j < |before| && RunVerifiedBy(before, j);
    var i :| 0 <= i < j && Does(before[i], Generative);
    assert Does(run[i], Generative) && run[j] == before[j];
    assert RunVerifiedBy(run, j);
  }

  lemma CanContinue(w: Workflow, run: seq<Event>)
    requires ShapeOk(w) && IsRun(w, run) && Halt !in run
    requires StateAfter(w, run) in w.states && !w.states[StateAfter(w, run)].terminal
    ensures exists e: Event :: e.Take? && IsRun(w, run + [e])
  {
    var at := StateAfter(w, run);
    assert StateOk(w, at, w.states[at]);
    var i :| 0 <= i < |w.states[at].transitions| && !w.states[at].transitions[i].halt;
    var t := w.states[at].transitions[i];
    var e := Take(t, t.target);
    assert Enabled(w, at, e);
    RunExtends(w, run, e);
  }

  lemma RunExtends(w: Workflow, run: seq<Event>, e: Event)
    requires IsRun(w, run) && Halt !in run && Enabled(w, StateAfter(w, run), e)
    ensures IsRun(w, run + [e])
  {
    assert (run + [e])[..|run|] == run;
  }

  /**
   Soundness over all runs of an accepted workflow: fewer steps than states, at
   most the budgeted model steps, no way to be stuck short of a terminal except
   a halt, and success only after generating and then verifying last.
   */
  lemma AcceptedRunsAreSafe(w: Workflow, run: seq<Event>)
    requires Accepts(w) && IsRun(w, run)
    ensures Steps(run) < |w.states|
    ensures ModelSteps(run) <= w.maxModelSteps
    ensures StateAfter(w, run) in w.states
    ensures Halt !in run && !w.states[StateAfter(w, run)].terminal ==>
              exists e: Event :: e.Take? && IsRun(w, run + [e])
    ensures IsSuccess(w.states[StateAfter(w, run)]) ==> RunVerified(run)
  {
    var g, p := GraphOf(w), PathOf(run);
    GraphRepresents(w);
    GraphIsClosed(w, g);
    RunFollowsGraph(w, g, run);
    SafeAlong(w, g, run, p);
    if Timeout !in run {
      VerifiedPathVerifiedRun(w, g, run);
    }
    if Halt !in run && !w.states[StateAfter(w, run)].terminal {
      CanContinue(w, run);
    }
  }

  lemma SafeAlong(w: Workflow, g: Graph, run: seq<Event>, p: seq<Edge>)
    requires ShapeOk(w) && Represents(g, w) && Closed(g) && Acyclic(g)
    requires Search.PathsFine(g, w.initial, Wins(w), w.maxModelSteps)
    requires Follows(w, g, run, p)
    ensures Steps(run) < |w.states| && ModelSteps(run) <= w.maxModelSteps && StateAfter(w, run) in w.states
    ensures IsSuccess(w.states[StateAfter(w, run)]) ==> Timeout !in run && Search.VerifiedLast(p)
  {
    AcyclicWalkIsShort(g, w.initial, p);
    WalkStaysInside(g, w.initial, p);
    assert |w.states.Keys| == |w.states| && |g.Keys| == |g|;
    assert Search.WalkAcceptable(g, w.initial, Wins(w), w.maxModelSteps, p);
    if Timeout in run {
      TimeoutRunIsShort(w, g, p);
    }
  }

  lemma EdgeIsTake(w: Workflow, g: Graph, at: Name, edge: Edge) returns (e: Event)
    requires Represents(g, w) && at in g && edge in g[at]
    ensures e.Take? && Enabled(w, at, e)
    ensures e.target == edge.target && e.transition.workKind == Some(edge.role)
  {
    var state := w.states[at];
    var i :| 0 <= i < |state.transitions| && Moves(state.transitions[i], edge);
    e := Take(state.transitions[i], edge.target);
  }

  /** Every path of the graph is a run, so a path that breaks the rules is a run that breaks them. */
  lemma {:induction false} PathIsRun(w: Workflow, g: Graph, p: seq<Edge>) returns (run: seq<Event>)
    requires ShapeOk(w) && Represents(g, w) && IsWalk(g, w.initial, p)
    ensures IsRun(w, run) && PathOf(run) == p && StateAfter(w, run) == End(w.initial, p)
    ensures Halt !in run && Timeout !in run
    decreases |p|
  {
    if p == [] {
      run := [];
    } else {
      var n := |p| - 1;
      PrefixWalk(g, w.initial, p, n);
      var before := PathIsRun(w, g, p[..n]);
      assert StepAt(g, w.initial, p, n);
      var e := EdgeIsTake(w, g, At(w.initial, p, n), p[n]);
      run := before + [e];
      assert run[..|before|] == before;
      assert p == p[..n] + [p[n]];
    }
  }

  /** The budget check is needed as well as safe: a workflow rejected for its budget has a run that exceeds it. */
  lemma OverBudgetIsReal(w: Workflow, p: seq<Edge>)
    requires ShapeOk(w) && IsWalk(GraphOf(w), w.initial, p) && Search.Generations(p) > w.maxModelSteps
    ensures exists run :: IsRun(w, run) && ModelSteps(run) > w.maxModelSteps
  {
    GraphRepresents(w);
    var run := PathIsRun(w, GraphOf(w), p);
    RunFollowsGraph(w, GraphOf(w), run);
  }

  /** So is the verification check: a workflow rejected for it has a run that succeeds without being verified last. */
  lemma UnverifiedIsReal(w: Workflow, p: seq<Edge>)
    requires ShapeOk(w) && IsWalk(GraphOf(w), w.initial, p)
    requires End(w.initial, p) in Wins(w) && !Search.VerifiedLast(p)
    ensures exists run :: IsRun(w, run) && StateAfter(w, run) in Wins(w) && !RunVerified(run)
  {
    GraphRepresents(w);
    var run := PathIsRun(w, GraphOf(w), p);
    VerifiedPathVerifiedRun(w, GraphOf(w), run);
  }

  /** And the last check: a workflow rejected for having no success has no run that succeeds. */
  lemma NoSuccessIsReal(w: Workflow, run: seq<Event>)
    requires ShapeOk(w) && IsRun(w, run)
    requires forall p :: IsWalk(GraphOf(w), w.initial, p) ==> End(w.initial, p) !in Wins(w)
    ensures StateAfter(w, run) !in Wins(w)
  {
    GraphRepresents(w);
    RunFollowsGraph(w, GraphOf(w), run);
  }
}
