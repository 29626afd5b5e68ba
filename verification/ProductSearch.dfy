/**
 The worklist search of the amplifier validator over (state, model count, verified),
 deduplicated by a `seen` set, and why deduplication hides no bad path.
 */
module ProductSearch {
  import opened Graph

  /** One node of the product: a state with the model steps taken so far and whether the work stands verified. */
  datatype Node = Node(state: Name, models: nat, verified: bool)

  datatype Finding = Fine | OverBudget | Unverified | NoSuccess

  function Advance(x: Node, e: Edge): Node {
    Node(
      e.target,
      x.models + (if e.role.Generative? then 1 else 0),
      match e.role
      case Verification => x.models > 0
      case Intent => x.verified
      case _ => false)
  }

  /** The product node a walk from `start` reaches. */
  function Reach(start: Name, p: seq<Edge>): Node {
    if p == [] then Node(start, 0, false) else Advance(Reach(start, p[..|p| - 1]), p[|p| - 1])
  }

  // ----- what the product node says about the walk -----

  /** How many generative steps `p` takes. */
  ghost function Generations(p: seq<Edge>): nat {
    if p == [] then 0 else Generations(p[..|p| - 1]) + (if p[|p| - 1].role.Generative? then 1 else 0)
  }

  /** The last step that is not a human decision is a verification, and something was generated before it. */
  ghost predicate VerifiedLast(p: seq<Edge>) {
    exists j | 0 <= j < |p| :: VerifiedBy(p, j)
  }

  ghost predicate VerifiedBy(p: seq<Edge>, j: nat)
    requires j < |p|
  {
    && p[j].role.Verification?
    && (forall k | j < k < |p| :: p[k].role.Intent?)
    && exists i :: 0 <= i < j && p[i].role.Generative?
  }

  lemma {:induction false} GenerationsPositive(p: seq<Edge>)
    ensures Generations(p) > 0 <==> exists i :: 0 <= i < |p| && p[i].role.Generative?
  {
    if p == [] {
    } else {
      var n := |p| - 1;
      GenerationsPositive(p[..n]);
      assert forall i | 0 <= i < n :: p[..n][i] == p[i];
      if Generations(p[..n]) > 0 {
        var i :| 0 <= i < n && p[..n][i].role.Generative?;
        assert p[i].role.Generative?;
      }
    }
  }

  lemma VerifiedLastStep(p: seq<Edge>, e: Edge)
    ensures VerifiedLast(p + [e]) <==>
              match e.role
              case Verification => exists i :: 0 <= i < |p| && p[i].role.Generative?
              case Intent => VerifiedLast(p)
              case _ => false
  {
    var q, n := p + [e], |p|;
    assert q[n] == e;
    assert forall i | 0 <= i < n :: q[i] == p[i];
    if VerifiedLast(q) {
      var j :| 0 <= j < |q| && VerifiedBy(q, j);
      var i :| 0 <= i < j && q[i].role.Generative?;
      assert p[i].role.Generative?;
      if j < n {
        assert q[n].role.Intent?;
        assert VerifiedBy(p, j);
      }
    }
    if e.role.Verification? {
      if i :| 0 <= i < |p| && p[i].role.Generative? {
        assert q[i].role.Generative?;
        assert VerifiedBy(q, n);
      }
    } else if e.role.Intent? && VerifiedLast(p) {
      var j :| 0 <= j < |p| && VerifiedBy(p, j);
      var i :| 0 <= i < j && p[i].role.Generative?;
      assert q[i].role.Generative?;
      assert VerifiedBy(q, j);
    }
  }

  /** A product node is exactly the walk's end, its number of generative steps and whether it ends verified. */
  lemma {:induction false} ReachMeans(start: Name, p: seq<Edge>)
    ensures Reach(start, p) == Node(End(start, p), Generations(p), VerifiedLast(p))
  {
    if p == [] {
    } else {
      var n := |p| - 1;
      var q, e := p[..n], p[n];
      assert p == q + [e];
      ReachMeans(start, q);
      GenerationsPositive(q);
      VerifiedLastStep(q, e);
    }
  }

  // ----- the search -----

  ghost predicate Witnessed(g: Graph, start: Name, x: Node) {
    exists p :: IsWalk(g, start, p) && Reach(start, p) == x
  }

  lemma WitnessStep(g: Graph, start: Name, x: Node, e: Edge)
    requires Closed(g) && Witnessed(g, start, x) && x.state in g && e in g[x.state]
    ensures Witnessed(g, start, Advance(x, e))
  {
    var p :| IsWalk(g, start, p) && Reach(start, p) == x;
    ReachMeans(start, p);
    ExtendWalk(g, start, p, e);
    assert (p + [e])[..|p|] == p;
    assert Reach(start, p + [e]) == Advance(x, e);
  }

  ghost function Layer(names: set<Name>, models: nat): set<Node> {
    Row(names, models, false) + Row(names, models, true)
  }

  ghost function Row(names: set<Name>, models: nat, verified: bool): set<Node> {
    set s | s in names :: Node(s, models, verified)
  }

  /** The nodes over the states of `names` with a model count up to `top`. */
  ghost function Grid(names: set<Name>, top: nat): set<Node> {
    if top == 0 then Layer(names, 0) else Grid(names, top - 1) + Layer(names, top)
  }

  lemma InLayer(names: set<Name>, models: nat, x: Node)
    ensures x in Layer(names, models) <==> x.state in names && x.models == models
  {
    assert x in Row(names, x.models, x.verified) <==> x.state in names;
  }

  lemma {:induction false} InGrid(names: set<Name>, top: nat, x: Node)
    ensures x in Grid(names, top) <==> x.state in names && x.models <= top
    decreases top
  {
    InLayer(names, top, x);
    if top == 0 {
    } else {
      InGrid(names, top - 1, x);
    }
  }

  /** All nodes the search may ever mark: one more than the budget is where it stops. */
  ghost function Universe(g: Graph, budget: nat): set<Node> {
    Grid(g.Keys, budget + 1)
  }

  lemma {:induction false} RowSize(names: set<Name>, models: nat, verified: bool)
    ensures |Row(names, models, verified)| == |names|
  {
    if names == {} {
    } else {
      var s :| s in names;
      RowSize(names - {s}, models, verified);
      assert Row(names, models, verified) == Row(names - {s}, models, verified) + {Node(s, models, verified)};
    }
  }

  ghost function Times(n: nat, k: nat): nat {
    if n == 0 then 0 else Times(n - 1, k) + k
  }

  lemma {:induction false} TimesIsProduct(n: nat, k: nat)
    ensures Times(n, k) == n * k
  {
    if n == 0 {
    } else {
      TimesIsProduct(n - 1, k);
      assert n * k == (n - 1) * k + k;
    }
  }

  /** A count that starts at `each` and grows by `each`. */
  lemma {:induction false} Multiples(count: nat -> nat, top: nat, each: nat)
    requires count(0) == each && forall t: nat :: count(t + 1) == count(t) + each
    ensures count(top) == Times(top + 1, each)
  {
    if top == 0 {
      assert Times(0, each) == 0;
    } else {
      Multiples(count, top - 1, each);
      assert count((top - 1) + 1) == count(top - 1) + each;
    }
  }

  ghost function GridSize(names: set<Name>, top: nat): nat {
    |Grid(names, top)|
  }

  lemma GridLayers(names: set<Name>, top: nat)
    ensures |Grid(names, top)| == Times(top + 1, 2 * |names|)
  {
    ghost var count := (t: nat) => GridSize(names, t);
    GridBase(names);
    forall t: nat ensures count(t + 1) == count(t) + 2 * |names| {
      GridStep(names, t + 1);
    }
    Multiples(count, top, 2 * |names|);
  }

  lemma GridBase(names: set<Name>)
    ensures |Grid(names, 0)| == 2 * |names|
  {
    LayerSize(names, 0);
  }

  lemma GridBelow(names: set<Name>, top: nat)
    ensures forall x | x in Grid(names, top) :: x.models <= top
  {
    forall x | x in Grid(names, top) ensures x.models <= top {
      InGrid(names, top, x);
    }
  }

  lemma LayerAt(names: set<Name>, models: nat)
    ensures forall x | x in Layer(names, models) :: x.models == models
  {
    forall x | x in Layer(names, models) ensures x.models == models {
      InLayer(names, models, x);
    }
  }

  lemma AddUp(below: set<Node>, layer: set<Node>, top: nat)
    requires forall x | x in below :: x.models < top
    requires forall x | x in layer :: x.models == top
    ensures |below + layer| == |below| + |layer|
  {
    assert below !! layer;
  }

  lemma GridStep(names: set<Name>, top: nat)
    requires top > 0
    ensures |Grid(names, top)| == |Grid(names, top - 1)| + 2 * |names|
  {
    GridBelow(names, top - 1);
    LayerAt(names, top);
    AddUp(Grid(names, top - 1), Layer(names, top), top);
    LayerSize(names, top);
  }

  /** Termination measure: at most (model counts up to one past the budget) x (states) x 2 nodes can be marked. */
  lemma UniverseSize(g: Graph, budget: nat)
    ensures |Universe(g, budget)| == (budget + 2) * (2 * |g.Keys|)
  {
    GridLayers(g.Keys, budget + 1);
    TimesIsProduct(budget + 2, 2 * |g.Keys|);
  }

  lemma LayerSize(names: set<Name>, top: nat)
    ensures |Layer(names, top)| == 2 * |names|
  {
    RowSize(names, top, false);
    RowSize(names, top, true);
    assert Row(names, top, false) !! Row(names, top, true);
  }

  ghost predicate Marked(seen: set<Node>, queue: seq<Node>, x: Node) {
    x in seen || x in queue
  }

  /** Edges `0..k` of `x` lead to marked nodes. */
  ghost predicate ClosedAt(g: Graph, seen: set<Node>, queue: seq<Node>, x: Node, k: nat) {
    x.state in g && k <= |g[x.state]|
    && forall i | 0 <= i < k :: Marked(seen, queue, Advance(x, g[x.state][i]))
  }

  ghost predicate Sound(g: Graph, start: Name, budget: nat, x: Node) {
    x.state in g && x.models <= budget + 1 && Witnessed(g, start, x)
  }

  /** What the search demands of a node before expanding it. */
  predicate Acceptable(wins: set<Name>, budget: nat, x: Node) {
    x.models <= budget && (x.state in wins ==> x.models > 0 && x.verified)
  }

  /** Queue every successor of `x`. */
  method Expand(g: Graph, ghost start: Name, ghost budget: nat, x: Node, ghost seen: set<Node>, before: seq<Node>)
    returns (queue: seq<Node>)
    requires Closed(g) && Sound(g, start, budget, x) && x.models <= budget
    requires forall y | y in before :: Sound(g, start, budget, y)
    ensures forall y | y in queue :: Sound(g, start, budget, y)
    ensures before <= queue
    ensures ClosedAt(g, seen, queue, x, |g[x.state]|)
  {
    queue := before;
    var edges := g[x.state];
    var k := 0;
    while k < |edges|
      invariant 0 <= k <= |edges|
      invariant forall y | y in queue :: Sound(g, start, budget, y)
      invariant before <= queue
      invariant ClosedAt(g, seen, queue, x, k)
    {
      WitnessStep(g, start, x, edges[k]);
      queue := queue + [Advance(x, edges[k])];
      k := k + 1;
    }
  }

  /** Once nothing is queued, every walk ends in a seen node. */
  lemma {:induction false} SeenIsEverything(g: Graph, start: Name, seen: set<Node>, p: seq<Edge>)
    requires Closed(g) && Node(start, 0, false) in seen
    requires forall x | x in seen :: x.state in g && ClosedAt(g, seen, [], x, |g[x.state]|)
    requires IsWalk(g, start, p)
    ensures Reach(start, p) in seen
  {
    if p == [] {
    } else {
      var n := |p| - 1;
      PrefixWalk(g, start, p, n);
      SeenIsEverything(g, start, seen, p[..n]);
      ReachMeans(start, p[..n]);
      var x := Reach(start, p[..n]);
      assert StepAt(g, start, p, n);
      var i :| 0 <= i < |g[x.state]| && g[x.state][i] == p[n];
      assert Marked(seen, [], Advance(x, g[x.state][i]));
    }
  }

  ghost predicate WalkAcceptable(g: Graph, start: Name, wins: set<Name>, budget: nat, p: seq<Edge>) {
    Generations(p) <= budget && (End(start, p) in wins ==> VerifiedLast(p))
  }

  /** The contract of an accepted graph, in terms of paths only. */
  ghost predicate PathsFine(g: Graph, start: Name, wins: set<Name>, budget: nat) {
    && (forall p :: IsWalk(g, start, p) ==> WalkAcceptable(g, start, wins, budget, p))
    && exists p :: IsWalk(g, start, p) && End(start, p) in wins
  }

  ghost predicate Searching(g: Graph, start: Name, wins: set<Name>, budget: nat,
                            seen: set<Node>, queue: seq<Node>, success: bool) {
    && seen <= Universe(g, budget)
    && (forall y | y in seen :: Sound(g, start, budget, y) && Acceptable(wins, budget, y))
    && (forall y | y in queue :: Sound(g, start, budget, y))
    && Marked(seen, queue, Node(start, 0, false))
    && (forall y | y in seen :: ClosedAt(g, seen, queue, y, |g[y.state]|))
    && (success <==> exists y | y in seen :: y.state in wins)
  }

  /** The head of the queue was seen before: dropping it loses no mark. */
  lemma DropSeen(g: Graph, start: Name, wins: set<Name>, budget: nat, seen: set<Node>, queue: seq<Node>, success: bool)
    requires queue != [] && queue[0] in seen && Searching(g, start, wins, budget, seen, queue, success)
    ensures Searching(g, start, wins, budget, seen, queue[1..], success)
  {
    forall z | Marked(seen, queue, z) ensures Marked(seen, queue[1..], z) {
      if z in queue && z != queue[0] {
        var i :| 0 <= i < |queue| && queue[i] == z;
        assert queue[1..][i - 1] == z;
      }
    }
    forall y | y in seen ensures ClosedAt(g, seen, queue[1..], y, |g[y.state]|) {
      assert ClosedAt(g, seen, queue, y, |g[y.state]|);
    }
  }

  lemma BadNodeBadPath(g: Graph, start: Name, wins: set<Name>, budget: nat, x: Node)
    requires Witnessed(g, start, x) && !Acceptable(wins, budget, x)
    ensures exists p :: IsWalk(g, start, p) && !WalkAcceptable(g, start, wins, budget, p)
    ensures x.models > budget ==> exists p :: IsWalk(g, start, p) && Generations(p) > budget
    ensures x.models <= budget ==> exists p :: IsWalk(g, start, p) && End(start, p) in wins && !VerifiedLast(p)
  {
    var p :| IsWalk(g, start, p) && Reach(start, p) == x;
    ReachMeans(start, p);
    if VerifiedLast(p) {
      GenerationsPositive(p);
    }
  }

  lemma FinishedSearch(g: Graph, start: Name, wins: set<Name>, budget: nat, seen: set<Node>, success: bool)
    requires Closed(g) && Searching(g, start, wins, budget, seen, [], success)
    ensures forall x :: x in seen <==> Witnessed(g, start, x)
    ensures forall p :: IsWalk(g, start, p) ==> WalkAcceptable(g, start, wins, budget, p)
    ensures success <==> exists p :: IsWalk(g, start, p) && End(start, p) in wins
  {
    forall p | IsWalk(g, start, p)
      ensures Reach(start, p) in seen && WalkAcceptable(g, start, wins, budget, p)
    {
      SeenIsEverything(g, start, seen, p);
      ReachMeans(start, p);
      assert Acceptable(wins, budget, Reach(start, p));
    }
    if success {
      var x :| x in seen && x.state in wins;
      var p :| IsWalk(g, start, p) && Reach(start, p) == x;
      ReachMeans(start, p);
    }
    if p :| IsWalk(g, start, p) && End(start, p) in wins {
      ReachMeans(start, p);
      assert Reach(start, p).state in wins;
    }
  }

  /**
   The search answers `Fine` exactly when every path from the start stays within
   the budget and reaches a success terminal only verified, and some path does;
   then `seen` is exactly the nodes paths reach. Every rejection is justified.
   */
  method Search(g: Graph, start: Name, wins: set<Name>, budget: nat) returns (r: Finding, ghost seen: set<Node>)
    requires Closed(g) && start in g
    ensures r.Fine? <==> PathsFine(g, start, wins, budget)
    ensures seen <= Universe(g, budget)
    ensures r.Fine? || r.NoSuccess? ==> forall x :: x in seen <==> Witnessed(g, start, x)
    ensures r.OverBudget? ==> exists p :: IsWalk(g, start, p) && Generations(p) > budget
    ensures r.Unverified? ==> exists p :: IsWalk(g, start, p) && End(start, p) in wins && !VerifiedLast(p)
    ensures r.NoSuccess? ==> forall p :: IsWalk(g, start, p) ==> End(start, p) !in wins
  {
    var queue := [Node(start, 0, false)];
    var marked: set<Node> := {};
    var success := false;
    seen := {};
    assert IsWalk(g, start, []) && Reach(start, []) == Node(start, 0, false);
    while queue != []
      invariant Searching(g, start, wins, budget, marked, queue, success)
      decreases Universe(g, budget) - marked, |queue|
    {
      var x := queue[0];
      assert x in queue;
      var rest := queue[1..];
      if x in marked {
        DropSeen(g, start, wins, budget, marked, queue, success);
        queue := rest;
        continue;
      }
      ghost var was := marked;
      marked := marked + {x};
      InGrid(g.Keys, budget + 1, x);
      if !Acceptable(wins, budget, x) {
        BadNodeBadPath(g, start, wins, budget, x);
        r := if x.models > budget then OverBudget else Unverified;
        seen := marked;
        return;
      }
      var next := Expand(g, start, budget, x, marked, rest);
      StepKeeps(g, start, wins, budget, was, queue, next, success);
      success := success || x.state in wins;
      queue := next;
    }
    FinishedSearch(g, start, wins, budget, marked, success);
    seen := marked;
    r := if success then Fine else NoSuccess;
  }

  lemma StepKeeps(g: Graph, start: Name, wins: set<Name>, budget: nat,
                  was: set<Node>, queue: seq<Node>, next: seq<Node>, success: bool)
    requires queue != [] && Searching(g, start, wins, budget, was, queue, success)
    requires queue[0] in Universe(g, budget) && Acceptable(wins, budget, queue[0])
    requires Sound(g, start, budget, queue[0])
    requires queue[1..] <= next && forall y | y in next :: Sound(g, start, budget, y)
    requires ClosedAt(g, was + {queue[0]}, next, queue[0], |g[queue[0].state]|)
    ensures Searching(g, start, wins, budget, was + {queue[0]}, next, success || queue[0].state in wins)
  {
    var x, now := queue[0], was + {queue[0]};
    forall z | Marked(was, queue, z) ensures Marked(now, next, z) {
      if z in queue && z != x {
        var i :| 0 <= i < |queue| && queue[i] == z;
        assert next[i - 1] == z;
      }
    }
    forall y | y in now ensures ClosedAt(g, now, next, y, |g[y.state]|) {
      if y != x {
        assert ClosedAt(g, was, queue, y, |g[y.state]|);
      }
    }
  }
}
