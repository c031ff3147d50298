/** The dependency graph of a decomposition plan and the depth-first cycle search over it. */
module DependencyCycles {
  import opened Prelude

  type Graph = map<string, seq<string>>

  /** `graph.get(node, [])`: a packet nobody declared has no dependencies. */
  function Successors(g: Graph, n: string): seq<string> {
    if n in g then g[n] else []
  }

  /** Every name the search can meet: declared packets and whatever they depend on. */
  function Nodes(g: Graph): set<string> {
    g.Keys + set n, d | n in g.Keys && d in g[n] :: d
  }

  ghost predicate IsPath(g: Graph, p: seq<string>) {
    && |p| > 0
    && forall i :: 0 <= i < |p| - 1 ==> p[i + 1] in Successors(g, p[i])
  }

  /** A path of at least one edge that returns to where it started. */
  ghost predicate IsCycle(g: Graph, p: seq<string>) {
    IsPath(g, p) && |p| >= 2 && p[0] == p[|p| - 1]
  }

  ghost predicate Cyclic(g: Graph) {
    exists p :: IsCycle(g, p)
  }

  /** Each name comes after everything it depends on. */
  ghost predicate Topological(g: Graph, order: seq<string>) {
    forall i, d :: 0 <= i < |order| && d in Successors(g, order[i]) ==> d in order[..i]
  }

  /** The first position of `x`. */
  ghost function IndexOf(s: seq<string>, x: string): (k: nat)
    requires x in s
    ensures k < |s| && s[k] == x && forall j :: 0 <= j < k ==> s[j] != x
  {
    if s[0] == x then 0 else 1 + IndexOf(s[1..], x)
  }

  lemma DependenciesComeFirst(g: Graph, order: seq<string>, n: string, d: string)
    requires Topological(g, order) && n in order && d in Successors(g, n)
    ensures d in order && IndexOf(order, d) < IndexOf(order, n)
  {
    var k := IndexOf(order, n);
    assert d in order[..k];
    var j :| 0 <= j < k && order[j] == d;
  }

  /** Walking along dependencies only ever moves towards the front of a topological order. */
  lemma {:induction false} PathsDescend(g: Graph, order: seq<string>, p: seq<string>, k: nat)
    requires Topological(g, order) && IsPath(g, p) && p[0] in order && k < |p|
    ensures p[k] in order && IndexOf(order, p[k]) + k <= IndexOf(order, p[0])
    decreases k
  {
    if k > 0 {
      PathsDescend(g, order, p, k - 1);
      assert p[(k - 1) + 1] in Successors(g, p[k - 1]);
      DependenciesComeFirst(g, order, p[k - 1], p[k]);
    }
  }

  /** A topological order of all declared packets rules every cycle out. */
  lemma TopologicalMeansAcyclic(g: Graph, order: seq<string>)
    requires Topological(g, order)
    requires forall n :: n in g ==> n in order
    ensures !Cyclic(g)
  {
    if Cyclic(g) {
      var p :| IsCycle(g, p);
      assert p[0 + 1] in Successors(g, p[0]);
      PathsDescend(g, order, p, |p| - 1);
      assert false;
    }
  }

  lemma MeetingAgainIsCycle(g: Graph, stack: seq<string>, node: string)
    requires node in ToSet(stack)
    requires stack != [] ==> IsPath(g, stack) && node in Successors(g, stack[|stack| - 1])
    ensures Cyclic(g)
  {
    var i :| 0 <= i < |stack| && stack[i] == node;
    assert IsCycle(g, stack[i..] + [node]);
  }

  lemma SetGrows(s: seq<string>, x: string)
    ensures ToSet(s + [x]) == ToSet(s) + {x}
    ensures forall y :: y in ToSet(s) <==> y in s
  {
  }

  lemma PathGrows(g: Graph, stack: seq<string>, node: string)
    requires stack != [] ==> IsPath(g, stack) && node in Successors(g, stack[|stack| - 1])
    ensures IsPath(g, stack + [node])
  {
  }

  lemma PathShrinks(g: Graph, stack: seq<string>, node: string)
    requires IsPath(g, stack + [node])
    ensures stack != [] ==> IsPath(g, stack)
  {
    forall i | 0 <= i < |stack| - 1 ensures stack[i + 1] in Successors(g, stack[i]) {
      assert (stack + [node])[i + 1] in Successors(g, (stack + [node])[i]);
    }
  }

  lemma SuccessorsAreNodes(g: Graph, n: string, d: string)
    requires d in Successors(g, n)
    ensures d in Nodes(g)
  {
    assert n in g && d in g[n];
  }

  /** A name may be put behind everything it depends on. */
  lemma OrderGrows(g: Graph, order: seq<string>, n: string)
    requires Topological(g, order) && forall d :: d in Successors(g, n) ==> d in ToSet(order)
    ensures Topological(g, order + [n])
  {
    var longer := order + [n];
    forall i, d | 0 <= i < |longer| && d in Successors(g, longer[i]) ensures d in longer[..i] {
      if i < |order| {
        assert order[..i] == longer[..i];
      } else {
        assert longer[..i] == order;
      }
    }
  }

  /** `_has_cycle`: the shared `temp` and `perm` sets of the nested `visit`. */
  class CycleSearch {
    const graph: Graph
    var temp: set<string>
    var perm: set<string>
    ghost var stack: seq<string>      // the chain of visits in progress, oldest first
    ghost var finished: seq<string>   // names in the order they became permanent

    ghost predicate Valid()
      reads this
    {
      && temp == ToSet(stack)
      && perm == ToSet(finished)
      && (stack != [] ==> IsPath(graph, stack))
      && temp <= Nodes(graph)
      && perm <= Nodes(graph)
      && temp !! perm
      && Topological(graph, finished)
    }

    constructor (g: Graph)
      ensures Valid() && graph == g && temp == {} && perm == {} && stack == []
    {
      graph := g;
      temp, perm := {}, {};
      stack, finished := [], [];
    }

    /** Either exhibits a cycle or makes `node` permanent and restores `temp`. */
    method Visit(node: string) returns (found: bool)
      requires Valid() && node in Nodes(graph)
      requires stack != [] ==> node in Successors(graph, stack[|stack| - 1])
      modifies this
      ensures found ==> Cyclic(graph)
      ensures !found ==> Valid() && temp == old(temp) && stack == old(stack)
      ensures !found ==> old(perm) <= perm && node in perm
      decreases Nodes(graph) - (temp + perm)
    {
      hide IsPath, Topological, Cyclic, Nodes, ToSet;
      if node in perm {
        return false;
      }
      if node in temp {
        MeetingAgainIsCycle(graph, stack, node);
        return true;
      }
      ghost var outer := stack;
      PathGrows(graph, outer, node);
      SetGrows(outer, node);
      temp := temp + {node};
      stack := stack + [node];
      var deps := Successors(graph, node);
      for k := 0 to |deps|
        invariant Valid() && temp == old(temp) + {node} && stack == outer + [node]
        invariant old(perm) <= perm
        invariant forall j :: 0 <= j < k ==> deps[j] in perm
      {
        assert stack[|stack| - 1] == node;
        SuccessorsAreNodes(graph, node, deps[k]);
        var hit := Visit(deps[k]);
        if hit {
          return true;
        }
      }
      PathShrinks(graph, outer, node);
      OrderGrows(graph, finished, node);
      SetGrows(finished, node);
      temp := temp - {node};
      perm := perm + {node};
      stack := outer;
      finished := finished + [node];
      return false;
    }
  }

  /** `any(visit(node) for node in graph)`: true exactly when some dependency chain closes. */
  method HasCycle(g: Graph, keys: seq<string>) returns (found: bool)
    requires ToSet(keys) == g.Keys
    ensures found <==> Cyclic(g)
  {
    var search := new CycleSearch(g);
    for i := 0 to |keys|
      invariant search.Valid() && search.graph == g && search.stack == [] && fresh(search)
      invariant forall j :: 0 <= j < i ==> keys[j] in search.perm
    {
      assert keys[i] in ToSet(keys);
      var hit := search.Visit(keys[i]);
      if hit {
        return true;
      }
    }
    forall n | n in g ensures n in search.finished {
      assert n in ToSet(keys);
    }
    TopologicalMeansAcyclic(g, search.finished);
    return false;
  }
}
