/**
 The dependency graph of an execution plan: the depth-first acceptance check and what an
 accepted graph guarantees.
 */
module PlanGraph {

  type Graph = map<string, seq<string>>

  predicate Edge(g: Graph, a: string, b: string) {
    a in g && b in g[a]
  }

  // A walk along dependencies: each element depends on the next.
  ghost predicate Path(g: Graph, p: seq<string>) {
    |p| > 0 && forall i :: 0 <= i < |p| - 1 ==> Edge(g, p[i], p[i + 1])
  }

  ghost predicate Cycle(g: Graph, p: seq<string>) {
    |p| > 1 && Path(g, p) && p[0] == p[|p| - 1]
  }

  ghost predicate Closed(g: Graph) {
    forall a, b :: Edge(g, a, b) ==> b in g
  }

  /** Every dependency names an existing step and no step depends on itself, however indirectly. */
  ghost predicate Sound(g: Graph) {
    Closed(g) && forall p :: !Cycle(g, p)
  }

  // Finishing order of the search: dependencies come before their dependents.
  ghost predicate Ordered(g: Graph, order: seq<string>) {
    && (forall i :: 0 <= i < |order| ==> order[i] in g)
    && (forall i, j :: 0 <= i < j < |order| ==> order[i] != order[j])
    && (forall i, d :: 0 <= i < |order| && d in g[order[i]] ==> d in order[..i])
  }

  lemma {:induction false} PathDescends(g: Graph, order: seq<string>, p: seq<string>, at: nat) returns (last: nat)
    requires Ordered(g, order) && Path(g, p) && at < |order| && p[0] == order[at]
    ensures last < |order| && order[last] == p[|p| - 1]
    ensures last <= at && (|p| > 1 ==> last < at)
    decreases |p|
  {
    last := at;
    if |p| > 1 {
      assert Edge(g, p[0], p[1]);
      assert p[1] in order[..at];
      var next :| 0 <= next < at && order[next] == p[1];
      forall i | 0 <= i < |p[1..]| - 1 ensures Edge(g, p[1..][i], p[1..][i + 1]) {
        assert Edge(g, p[i + 1], p[i + 2]);
      }
      last := PathDescends(g, order, p[1..], next);
    }
  }

  /** A complete finishing order proves the graph sound. */
  lemma OrderedIsSound(g: Graph, order: seq<string>)
    requires Ordered(g, order) && forall a :: a in g ==> a in order
    ensures Sound(g)
  {
    forall a, b | Edge(g, a, b) ensures b in g {
      var i :| 0 <= i < |order| && order[i] == a;
      assert b in order[..i];
    }
    forall p ensures !Cycle(g, p) {
      if Cycle(g, p) {
        assert Edge(g, p[0], p[1]);
        var i :| 0 <= i < |order| && order[i] == p[0];
        var last := PathDescends(g, order, p, i);
        assert false;
      }
    }
  }

  lemma {:induction false} DistinctFits(p: seq<string>, keys: set<string>)
    requires forall i, j :: 0 <= i < j < |p| ==> p[i] != p[j]
    requires forall i :: 0 <= i < |p| ==> p[i] in keys
    ensures |p| <= |keys|
    decreases |p|
  {
    if |p| > 0 {
      DistinctFits(p[1..], keys - {p[0]});
    }
  }

  /** In a sound graph no path is longer than the number of steps. */
  lemma PathsAreShort(g: Graph, p: seq<string>)
    requires Sound(g) && Path(g, p) && forall i :: 0 <= i < |p| ==> p[i] in g
    ensures |p| <= |g|
  {
    forall i, j | 0 <= i < j < |p| ensures p[i] != p[j] {
      RepeatIsCycle(g, p, i, j);
    }
    DistinctFits(p, g.Keys);
  }

  lemma RepeatIsCycle(g: Graph, p: seq<string>, i: nat, j: nat)
    requires Path(g, p) && i < j < |p|
    ensures p[i] == p[j] ==> Cycle(g, p[i..j + 1])
  {
  }

  /**
   The recursive check of the plan: `visiting` holds the steps on the recursion stack,
   `visited` the finished ones.  The ghost fields remember both in order.
   */
  class Visitor {
    const graph: Graph
    var visiting: set<string>
    var visited: set<string>
    ghost var stack: seq<string>
    ghost var order: seq<string>

    constructor (graph: Graph)
      ensures this.graph == graph && visiting == {} && visited == {} && stack == [] && order == []
      ensures Valid()
    {
      this.graph := graph;
      visiting, visited, stack, order := {}, {}, [], [];
    }

    ghost predicate Valid()
      reads this
    {
      && visiting == (set a | a in stack)
      && visited == (set a | a in order)
      && (|stack| > 0 ==> Path(graph, stack))
      && (forall a :: a in stack ==> a in graph)
      && Ordered(graph, order)
    }

    method Visit(id: string) returns (ok: bool)
      requires Valid()
      requires if stack == [] then id in graph else Edge(graph, stack[|stack| - 1], id)
      modifies this
      ensures ok ==> Valid() && stack == old(stack) && old(order) <= order && id in visited
      ensures !ok ==> !Sound(graph)
      decreases graph.Keys - visiting
    {
      if id in visiting {
        ghost var i :| 0 <= i < |stack| && stack[i] == id;
        ghost var p := stack[i..] + [id];
        forall k | 0 <= k < |p| - 1 ensures Edge(graph, p[k], p[k + 1]) {
          if i + k < |stack| - 1 {
            assert Edge(graph, stack[i + k], stack[i + k + 1]);
          }
        }
        assert Cycle(graph, p);
        return false;
      }
      if id !in graph {
        return false;
      }
      if id in visited {
        return true;
      }
      ghost var stack0 := stack;
      visiting := visiting + {id};
      stack := stack + [id];
      forall k | 0 <= k < |stack| - 1 ensures Edge(graph, stack[k], stack[k + 1]) {
        if k < |stack0| - 1 {
          assert Edge(graph, stack0[k], stack0[k + 1]);
        }
      }
      for n := 0 to |graph[id]|
        invariant Valid() && stack == stack0 + [id] && old(order) <= order
        invariant forall d :: d in graph[id][..n] ==> d in order
      {
        var good := Visit(graph[id][n]);
        if !good {
          return false;
        }
        assert graph[id][..n + 1] == graph[id][..n] + [graph[id][n]];
      }
      assert graph[id][..|graph[id]|] == graph[id];
      visiting := visiting - {id};
      stack := stack0;
      if id !in order {
        ghost var done := order;
        order := done + [id];
        forall i, d | 0 <= i < |order| && d in graph[order[i]] ensures d in order[..i] {
          assert order[..i] == done[..i];
        }
      }
      visited := visited + {id};
      ok := true;
    }

    /** The check over all steps succeeds exactly when the graph is sound. */
    method VisitAll(ids: seq<string>) returns (ok: bool)
      requires Valid() && stack == [] && order == []
      requires forall a :: a in ids <==> a in graph
      modifies this
      ensures ok <==> Sound(graph)
    {
      for n := 0 to |ids|
        invariant Valid() && stack == []
        invariant forall a :: a in ids[..n] ==> a in order
      {
        var good := Visit(ids[n]);
        if !good {
          return false;
        }
        assert ids[..n + 1] == ids[..n] + [ids[n]];
      }
      assert ids[..|ids|] == ids;
      OrderedIsSound(graph, order);
      ok := true;
    }
  }
}
