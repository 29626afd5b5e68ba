/**
 The cycle check of the amplifier validator: Kahn's algorithm over a multigraph,
 for every order in which states are listed and queued.
 */
module Kahn {
  import opened Graph
  import opened Sets

  /** One edge of the multigraph: the `index`-th edge out of `source`. */
  datatype EdgeId = EdgeId(source: Name, index: int)

  ghost predicate IsEdge(g: Graph, e: EdgeId) {
    e.source in g && 0 <= e.index < |g[e.source]|
  }

  ghost function TargetOf(g: Graph, e: EdgeId): Name
    requires IsEdge(g, e)
  {
    g[e.source][e.index].target
  }

  /** For every state, the edges that end in it. */
  type Incoming = map<Name, set<EdgeId>>

  /** `into` lists, for each state, every edge out of `from` that ends in it; parallel edges are listed separately. */
  ghost predicate EdgesOutOf(g: Graph, into: Incoming, from: set<Name>) {
    && into.Keys == g.Keys
    && forall t, e | t in into :: e in into[t] <==> IsEdge(g, e) && TargetOf(g, e) == t && e.source in from
  }

  /** As `EdgesOutOf`, and the edges of `cur` whose index is in `lo..hi`. */
  ghost predicate EdgesOutOfAnd(g: Graph, into: Incoming, from: set<Name>, cur: Name, lo: nat, hi: nat) {
    && into.Keys == g.Keys
    && forall t, e | t in into ::
         e in into[t] <==> IsEdge(g, e) && TargetOf(g, e) == t
                           && (e.source in from || (e.source == cur && lo <= e.index < hi))
  }

  ghost predicate Counts(into: Incoming, indegree: map<Name, nat>) {
    indegree.Keys == into.Keys && forall t | t in into :: indegree[t] == |into[t]|
  }

  /** Add the edges of one state to the counts. */
  method CountEdges(g: Graph, s: Name, ghost from: set<Name>, ghost had: Incoming, before: map<Name, nat>)
    returns (indegree: map<Name, nat>, ghost into: Incoming)
    requires Closed(g) && s in g && s !in from
    requires EdgesOutOf(g, had, from) && Counts(had, before)
    ensures EdgesOutOf(g, into, from + {s}) && Counts(into, indegree)
  {
    indegree, into := before, had;
    var k := 0;
    while k < |g[s]|
      invariant 0 <= k <= |g[s]|
      invariant EdgesOutOfAnd(g, into, from, s, 0, k)
      invariant Counts(into, indegree)
    {
      var target := g[s][k].target;
      into := into[target := into[target] + {EdgeId(s, k)}];
      indegree := indegree[target := indegree[target] + 1];
      k := k + 1;
    }
  }

  method CountIndegrees(g: Graph) returns (indegree: map<Name, nat>, ghost into: Incoming)
    requires Closed(g)
    ensures EdgesOutOf(g, into, g.Keys) && Counts(into, indegree)
  {
    indegree, into := map s | s in g :: 0, map s | s in g :: {};
    var todo := g.Keys;
    ghost var from: set<Name> := {};
    while todo != {}
      invariant todo <= g.Keys && from == g.Keys - todo
      invariant EdgesOutOf(g, into, from) && Counts(into, indegree)
      decreases todo
    {
      var s :| s in todo;
      indegree, into := CountEdges(g, s, from, into, indegree);
      todo, from := todo - {s}, from + {s};
    }
  }

  method Sources(indegree: map<Name, nat>) returns (ready: seq<Name>)
    ensures Distinct(ready)
    ensures forall s :: s in ready <==> s in indegree && indegree[s] == 0
  {
    ready := [];
    var todo := indegree.Keys;
    while todo != {}
      invariant todo <= indegree.Keys
      invariant Distinct(ready)
      invariant forall s :: s in ready <==> s in indegree && s !in todo && indegree[s] == 0
    {
      var s :| s in todo;
      if indegree[s] == 0 {
        ready := ready + [s];
      }
      todo := todo - {s};
    }
  }

  ghost predicate Distinct(xs: seq<Name>) {
    forall i, j | 0 <= i < j < |xs| :: xs[i] != xs[j]
  }

  /** The queue holds exactly the unpopped states with no incoming edge left, each once. */
  ghost predicate Queued(g: Graph, popped: set<Name>, ready: seq<Name>, indegree: map<Name, nat>)
    requires indegree.Keys == g.Keys
  {
    Distinct(ready) && forall s :: s in ready <==> s in g && s !in popped && indegree[s] == 0
  }

  /** Every edge into a popped state comes from a state popped earlier. */
  ghost predicate Ranked(g: Graph, popped: map<Name, nat>) {
    forall s, i | s in g && 0 <= i < |g[s]| && g[s][i].target in popped ::
      s in popped && popped[s] < popped[g[s][i].target]
  }

  /** Take away the edges of the state just popped, queueing each target whose count reaches zero. */
  method Relax(g: Graph, ghost popped: set<Name>, s: Name, rest: seq<Name>,
               ghost had: Incoming, before: map<Name, nat>)
    returns (indegree: map<Name, nat>, ready: seq<Name>, ghost into: Incoming)
    requires Closed(g) && s in g && s !in popped
    requires EdgesOutOf(g, had, g.Keys - popped) && Counts(had, before)
    requires forall i | 0 <= i < |g[s]| :: g[s][i].target !in popped && g[s][i].target != s
    requires Queued(g, popped + {s}, rest, before)
    ensures EdgesOutOf(g, into, g.Keys - (popped + {s})) && Counts(into, indegree)
    ensures Queued(g, popped + {s}, ready, indegree)
  {
    indegree, ready, into := before, rest, had;
    var k := 0;
    while k < |g[s]|
      invariant 0 <= k <= |g[s]|
      invariant EdgesOutOfAnd(g, into, g.Keys - (popped + {s}), s, k, |g[s]|)
      invariant Counts(into, indegree)
      invariant Queued(g, popped + {s}, ready, indegree)
    {
      var target := g[s][k].target;
      DropEdge(g, into, g.Keys - (popped + {s}), s, k, indegree);
      QueueStep(g, popped + {s}, ready, indegree, target);
      into := into[target := into[target] - {EdgeId(s, k)}];
      indegree := indegree[target := indegree[target] - 1];
      if indegree[target] == 0 {
        ready := ready + [target];
      }
      k := k + 1;
    }
  }

  /** Taking away edge `k` of `cur` lowers the count of its target by one, which was not zero. */
  lemma DropEdge(g: Graph, into: Incoming, from: set<Name>, cur: Name, k: nat, indegree: map<Name, nat>)
    requires cur in g && cur !in from && k < |g[cur]| && g[cur][k].target in g
    requires EdgesOutOfAnd(g, into, from, cur, k, |g[cur]|) && Counts(into, indegree)
    ensures var target := g[cur][k].target;
            && indegree[target] > 0
            && EdgesOutOfAnd(g, into[target := into[target] - {EdgeId(cur, k)}], from, cur, k + 1, |g[cur]|)
            && Counts(into[target := into[target] - {EdgeId(cur, k)}], indegree[target := indegree[target] - 1])
  {
    assert EdgeId(cur, k) in into[g[cur][k].target];
  }

  /** A state joins the queue when its count reaches zero. */
  lemma QueueStep(g: Graph, popped: set<Name>, ready: seq<Name>, indegree: map<Name, nat>, target: Name)
    requires indegree.Keys == g.Keys && Queued(g, popped, ready, indegree)
    requires target in g && target !in popped && indegree[target] > 0
    ensures Queued(g, popped, if indegree[target] == 1 then ready + [target] else ready,
                   indegree[target := indegree[target] - 1])
  {
    assert target !in ready;
  }

  /** What an empty queue means: the unpopped states form a set in which everyone has a predecessor. */
  lemma LeftoverHasCycle(g: Graph, popped: set<Name>, into: Incoming, indegree: map<Name, nat>)
    requires popped <= g.Keys && popped != g.Keys
    requires EdgesOutOf(g, into, g.Keys - popped) && Counts(into, indegree)
    requires Queued(g, popped, [], indegree)
    ensures !Acyclic(g)
  {
    var left := g.Keys - popped;
    assert g.Keys == popped + left;
    forall t {:trigger HasPredecessor(g, left, t)} | t in left ensures HasPredecessor(g, left, t) {
      assert t !in [];
      assert |into[t]| > 0;
      var e :| e in into[t];
      assert e.source in left && g[e.source][e.index].target == t;
    }
    PredecessorsForceCycle(g, left);
  }

  /** Popping `s`, into which no unpopped state leads, keeps the pop order a ranking. */
  lemma RankNext(g: Graph, popped: map<Name, nat>, into: Incoming, s: Name, rank: nat)
    requires s in g && s !in popped
    requires EdgesOutOf(g, into, g.Keys - popped.Keys) && into[s] == {}
    requires Ranked(g, popped)
    requires forall x | x in popped :: popped[x] < rank
    ensures Ranked(g, popped[s := rank])
    ensures forall i | 0 <= i < |g[s]| :: g[s][i].target !in popped && g[s][i].target != s
  {
    forall i | 0 <= i < |g[s]| ensures g[s][i].target != s {
      assert EdgeId(s, i) !in into[s];
    }
    var next := popped[s := rank];
    forall x, i | x in g && 0 <= i < |g[x]| && g[x][i].target in next
      ensures x in next && next[x] < next[g[x][i].target]
    {
      if g[x][i].target == s {
        assert EdgeId(x, i) !in into[s];
      }
    }
  }

  /** The loop invariant: in-degrees count the edges from unpopped states, and the pop order ranks the popped ones. */
  ghost predicate Popping(g: Graph, popped: map<Name, nat>, ready: seq<Name>, into: Incoming, indegree: map<Name, nat>) {
    && popped.Keys <= g.Keys
    && EdgesOutOf(g, into, g.Keys - popped.Keys) && Counts(into, indegree)
    && Queued(g, popped.Keys, ready, indegree)
    && Ranked(g, popped)
    && forall s | s in popped :: popped[s] < |popped|
  }

  /** One turn of the loop: pop the head of the queue and relax its edges. */
  method PopFront(g: Graph, ghost popped: map<Name, nat>, queue: seq<Name>, ghost had: Incoming, before: map<Name, nat>)
    returns (indegree: map<Name, nat>, ready: seq<Name>, ghost into: Incoming, ghost next: map<Name, nat>)
    requires Closed(g) && queue != [] && Popping(g, popped, queue, had, before)
    ensures Popping(g, next, ready, into, indegree)
    ensures |next| == |popped| + 1 && next.Keys == popped.Keys + {queue[0]} && queue[0] in g.Keys - popped.Keys
  {
    var state := queue[0];
    assert state in queue;
    RankNext(g, popped, had, state, |popped|);
    PopHead(g, popped.Keys, queue, before);
    next := popped[state := |popped|];
    assert next.Keys == popped.Keys + {state};
    indegree, ready, into := Relax(g, popped.Keys, state, queue[1..], had, before);
  }

  /** Kahn's algorithm visits every state exactly when the multigraph has no cycle. */
  method CountVisited(g: Graph) returns (visited: nat)
    requires Closed(g)
    ensures visited <= |g|
    ensures visited == |g| <==> Acyclic(g)
  {
    var indegree, into := CountIndegrees(g);
    var ready := Sources(indegree);
    visited := 0;
    ghost var popped: map<Name, nat> := map[];
    assert g.Keys - popped.Keys == g.Keys;
    while ready != []
      invariant visited == |popped| && Popping(g, popped, ready, into, indegree)
      decreases g.Keys - popped.Keys
    {
      visited := visited + 1;
      indegree, ready, into, popped := PopFront(g, popped, ready, into, indegree);
    }
    PoppedAllOrCycle(g, popped, into, indegree);
  }

  lemma PoppedAllOrCycle(g: Graph, popped: map<Name, nat>, into: Incoming, indegree: map<Name, nat>)
    requires Closed(g) && popped.Keys <= g.Keys
    requires EdgesOutOf(g, into, g.Keys - popped.Keys) && Counts(into, indegree)
    requires Queued(g, popped.Keys, [], indegree) && Ranked(g, popped)
    ensures |popped| <= |g|
    ensures |popped| == |g| <==> Acyclic(g)
  {
    assert |popped.Keys| == |popped|;
    SubsetFits(popped.Keys, g.Keys);
    if |popped| == |g| {
      RankedIsAcyclic(g, popped);
    } else {
      LeftoverHasCycle(g, popped.Keys, into, indegree);
    }
  }

  lemma PopHead(g: Graph, popped: set<Name>, ready: seq<Name>, indegree: map<Name, nat>)
    requires indegree.Keys == g.Keys && ready != [] && Queued(g, popped, ready, indegree)
    ensures Queued(g, popped + {ready[0]}, ready[1..], indegree)
  {
    forall s ensures s in ready[1..] <==> s in ready && s != ready[0] {
      if s in ready[1..] {
        var i :| 0 <= i < |ready[1..]| && ready[1..][i] == s;
        assert ready[i + 1] == s;
      }
    }
  }
}
