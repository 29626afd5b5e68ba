/**
 The role-labelled transition multigraph of an amplifier workflow, walks in it,
 and what acyclicity means for the length of a walk.
 */
module Graph {
  import opened Sets

  datatype Name = Name(text: string)

  /** What kind of work a transition performs (`work_kind`). */
  datatype Role = Generative | Deterministic | Verification | Intent

  datatype Edge = Edge(target: Name, role: Role)

  /** Every state with its outgoing edges; parallel edges and self-loops allowed. */
  type Graph = map<Name, seq<Edge>>

  ghost predicate Closed(g: Graph) {
    forall s, i | s in g && 0 <= i < |g[s]| :: g[s][i].target in g
  }

  /** The state reached after the first `i` edges of `p`. */
  function At(start: Name, p: seq<Edge>, i: nat): Name
    requires i <= |p|
  {
    if i == 0 then start else p[i - 1].target
  }

  function End(start: Name, p: seq<Edge>): Name {
    At(start, p, |p|)
  }

  /** Edge `i` of `p` leaves the state the walk is in. */
  ghost predicate StepAt(g: Graph, start: Name, p: seq<Edge>, i: nat)
    requires i < |p|
  {
    At(start, p, i) in g && p[i] in g[At(start, p, i)]
  }

  ghost predicate IsWalk(g: Graph, start: Name, p: seq<Edge>) {
    && start in g
    && forall i | 0 <= i < |p| :: StepAt(g, start, p, i)
  }

  ghost predicate IsCycle(g: Graph, start: Name, p: seq<Edge>) {
    p != [] && IsWalk(g, start, p) && End(start, p) == start
  }

  ghost predicate Acyclic(g: Graph) {
    forall s, p :: !IsCycle(g, s, p)
  }

  ghost function States(start: Name, p: seq<Edge>): (r: seq<Name>)
    ensures |r| == |p| + 1
  {
    seq(|p| + 1, i requires 0 <= i <= |p| => At(start, p, i))
  }

  lemma WalkStaysInside(g: Graph, start: Name, p: seq<Edge>)
    requires Closed(g) && IsWalk(g, start, p)
    ensures forall i | 0 <= i <= |p| :: At(start, p, i) in g
  {
    forall i | 0 <= i <= |p| ensures At(start, p, i) in g {
      assert i > 0 ==> StepAt(g, start, p, i - 1);
    }
  }

  lemma ExtendWalk(g: Graph, start: Name, p: seq<Edge>, e: Edge)
    requires IsWalk(g, start, p)
    requires End(start, p) in g && e in g[End(start, p)]
    ensures IsWalk(g, start, p + [e]) && End(start, p + [e]) == e.target
  {
    var q := p + [e];
    forall i | 0 <= i < |q| ensures StepAt(g, start, q, i) {
      if i < |p| {
        assert StepAt(g, start, p, i);
      }
    }
  }

  lemma PrefixWalk(g: Graph, start: Name, p: seq<Edge>, n: nat)
    requires IsWalk(g, start, p) && n <= |p|
    ensures IsWalk(g, start, p[..n]) && End(start, p[..n]) == At(start, p, n)
  {
    var q := p[..n];
    forall i | 0 <= i < |q| ensures StepAt(g, start, q, i) {
      assert StepAt(g, start, p, i);
    }
  }

  lemma SubWalk(g: Graph, start: Name, p: seq<Edge>, i: nat, j: nat)
    requires IsWalk(g, start, p) && i <= j <= |p|
    requires At(start, p, i) in g
    ensures IsWalk(g, At(start, p, i), p[i..j])
    ensures End(At(start, p, i), p[i..j]) == At(start, p, j)
  {
    var s, q := At(start, p, i), p[i..j];
    forall k | 0 <= k < |q| ensures StepAt(g, s, q, k) {
      assert StepAt(g, start, p, i + k);
    }
  }

  /** In an acyclic graph no walk meets a state twice, so a walk has fewer edges than there are states. */
  lemma AcyclicWalkIsShort(g: Graph, start: Name, p: seq<Edge>)
    requires Closed(g) && Acyclic(g) && IsWalk(g, start, p)
    ensures forall i, j | 0 <= i < j <= |p| :: At(start, p, i) != At(start, p, j)
    ensures |p| < |g|
  {
    WalkStaysInside(g, start, p);
    forall i, j | 0 <= i < j <= |p| ensures At(start, p, i) != At(start, p, j) {
      SubWalk(g, start, p, i, j);
      assert !IsCycle(g, At(start, p, i), p[i..j]);
    }
    DistinctFits(States(start, p), g.Keys);
  }

  /** Some edge inside `r` ends in `t`. */
  ghost predicate HasPredecessor(g: Graph, r: set<Name>, t: Name) {
    exists s, i :: s in r && s in g && 0 <= i < |g[s]| && g[s][i].target == t
  }

  /** A walk of any length that never leaves `r`, built backwards. */
  lemma {:induction false} BackwardWalk(g: Graph, r: set<Name>, t: Name, n: nat)
    returns (start: Name, p: seq<Edge>)
    requires r <= g.Keys && t in r
    requires forall s {:trigger HasPredecessor(g, r, s)} | s in r :: HasPredecessor(g, r, s)
    ensures |p| == n && IsWalk(g, start, p) && End(start, p) == t
    ensures forall i | 0 <= i <= |p| :: At(start, p, i) in r
    decreases n
  {
    if n == 0 {
      start, p := t, [];
    } else {
      assert HasPredecessor(g, r, t);
      var s, i :| s in r && s in g && 0 <= i < |g[s]| && g[s][i].target == t;
      var q;
      start, q := BackwardWalk(g, r, s, n - 1);
      ExtendWalk(g, start, q, g[s][i]);
      p := q + [g[s][i]];
      assert forall k | 0 <= k < |p| :: At(start, p, k) == At(start, q, k);
    }
  }

  /** A nonempty set of states in which every state has a predecessor contains a cycle. */
  lemma PredecessorsForceCycle(g: Graph, r: set<Name>)
    requires r != {} && r <= g.Keys
    requires forall s {:trigger HasPredecessor(g, r, s)} | s in r :: HasPredecessor(g, r, s)
    ensures !Acyclic(g)
  {
    var t :| t in r;
    var start, p := BackwardWalk(g, r, t, |r|);
    var states := States(start, p);
    if forall i, j | 0 <= i < j < |states| :: states[i] != states[j] {
      DistinctFits(states, r);
      assert false;
    }
    var i, j :| 0 <= i < j < |states| && states[i] == states[j];
    SubWalk(g, start, p, i, j);
    assert IsCycle(g, At(start, p, i), p[i..j]);
  }

  /** Ranks that grow along every edge rule out cycles. */
  lemma RankedIsAcyclic(g: Graph, rank: map<Name, nat>)
    requires rank.Keys == g.Keys
    requires forall s, i | s in g && 0 <= i < |g[s]| ::
               g[s][i].target in rank && rank[s] < rank[g[s][i].target]
    ensures Acyclic(g)
  {
    forall s, p ensures !IsCycle(g, s, p) {
      if IsCycle(g, s, p) {
        RankGrows(g, rank, s, p);
        assert false;
      }
    }
  }

  lemma {:induction false} RankGrows(g: Graph, rank: map<Name, nat>, s: Name, p: seq<Edge>)
    requires rank.Keys == g.Keys
    requires forall s, i | s in g && 0 <= i < |g[s]| ::
               g[s][i].target in rank && rank[s] < rank[g[s][i].target]
    requires IsWalk(g, s, p)
    ensures End(s, p) in rank && rank[s] + |p| <= rank[End(s, p)]
  {
    if p == [] {
    } else {
      var n := |p| - 1;
      PrefixWalk(g, s, p, n);
      RankGrows(g, rank, s, p[..n]);
      assert StepAt(g, s, p, n);
    }
  }
}
