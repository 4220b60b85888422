/**
  The dependency sort of autostart: a depth-first search that takes every service out of the order
  from which a dependency cycle can be reached.
 */
module TopoSort {

  type ServiceID = string

  /** Autostart candidates of one project: service to declared dependencies. A dependency need not be
      a candidate itself. */
  type Nodes = map<ServiceID, seq<ServiceID>>

  datatype Color = Gray | Black

  ghost predicate Edge(nodes: Nodes, a: ServiceID, b: ServiceID) {
    a in nodes && b in nodes && b in nodes[a]
  }

  ghost predicate IsPath(nodes: Nodes, p: seq<ServiceID>) {
    && p != [] && p[0] in nodes
    && forall i :: 0 <= i < |p| - 1 ==> Edge(nodes, p[i], p[i + 1])
  }

  ghost predicate Repeats(p: seq<ServiceID>) {
    exists i, j :: 0 <= i < j < |p| && p[i] == p[j]
  }

  /** Some path from `id` visits a service twice: a cycle is reachable from `id`. */
  ghost predicate ReachesCycle(nodes: Nodes, id: ServiceID) {
    exists p :: IsPath(nodes, p) && p[0] == id && Repeats(p)
  }

  ghost predicate Distinct(s: seq<ServiceID>) {
    forall i, j :: 0 <= i < j < |s| ==> s[i] != s[j]
  }

  /** Every in-set dependency of a listed service is listed before it. */
  ghost predicate DependenciesFirst(nodes: Nodes, order: seq<ServiceID>) {
    forall i, d :: 0 <= i < |order| && Edge(nodes, order[i], d) ==> d in order[..i]
  }

  // ----- the search -----

  lemma LoopThroughStack(nodes: Nodes, stack: seq<ServiceID>, dep: ServiceID)
    requires IsPath(nodes, stack) && dep in stack && Edge(nodes, stack[|stack| - 1], dep)
    ensures ReachesCycle(nodes, dep) && ReachesCycle(nodes, stack[|stack| - 1])
  {
    var i :| 0 <= i < |stack| && stack[i] == dep;
    var loop := stack[i..] + [dep];
    assert IsPath(nodes, loop) && loop[0] == loop[|loop| - 1];
    var back := [stack[|stack| - 1]] + stack[i..];
    assert IsPath(nodes, back) && back[0] == back[|back| - 1];
  }

  lemma CycleBehindEdge(nodes: Nodes, a: ServiceID, b: ServiceID)
    requires Edge(nodes, a, b) && ReachesCycle(nodes, b)
    ensures ReachesCycle(nodes, a)
  {
    var p :| IsPath(nodes, p) && p[0] == b && Repeats(p);
    var q := [a] + p;
    var i, j :| 0 <= i < j < |p| && p[i] == p[j];
    assert q[i + 1] == q[j + 1];
    assert IsPath(nodes, q);
  }

  /** A path from a listed service stays in the list and moves strictly towards its front. */
  lemma {:induction false} PathMovesForward(nodes: Nodes, order: seq<ServiceID>, p: seq<ServiceID>, k: nat)
    returns (at: nat)
    requires DependenciesFirst(nodes, order) && IsPath(nodes, p) && p[0] in order && k < |p|
    ensures at < |order| && order[at] == p[k]
    ensures Distinct(order) ==> forall i, n :: 0 <= i < k && 0 <= n < |order| && order[n] == p[i] ==> at < n
  {
    if k == 0 {
      at :| 0 <= at < |order| && order[at] == p[0];
    } else {
      var prev := PathMovesForward(nodes, order, p, k - 1);
      assert Edge(nodes, order[prev], p[k]);
      at :| 0 <= at < prev && order[at] == p[k];
    }
  }

  lemma ListedReachesNoCycle(nodes: Nodes, order: seq<ServiceID>, id: ServiceID)
    requires DependenciesFirst(nodes, order) && Distinct(order) && id in order
    ensures !ReachesCycle(nodes, id)
  {
    forall p | IsPath(nodes, p) && p[0] == id ensures !Repeats(p) {
      forall i, j | 0 <= i < j < |p| ensures p[i] != p[j] {
        var n := PathMovesForward(nodes, order, p, i);
        var m := PathMovesForward(nodes, order, p, j);
      }
    }
  }

  lemma AppendListed(nodes: Nodes, order: seq<ServiceID>, id: ServiceID)
    requires DependenciesFirst(nodes, order) && Distinct(order) && id !in order
    requires forall d :: Edge(nodes, id, d) ==> d in order
    ensures DependenciesFirst(nodes, order + [id]) && Distinct(order + [id])
  {
    var longer := order + [id];
    forall i, d | 0 <= i < |longer| && Edge(nodes, longer[i], d) ensures d in longer[..i] {
      assert longer[..i] == order[..i];
    }
  }

  class Sorter {
    const nodes: Nodes
    var color: map<ServiceID, Color>   // white: not in the map
    var inCycle: set<ServiceID>
    var order: seq<ServiceID>

    constructor (nodes: Nodes)
      ensures this.nodes == nodes && Sound() && order == [] && color == map[] && inCycle == {}
    {
      this.nodes := nodes;
      color, inCycle, order := map[], {}, [];
    }

    ghost predicate Sound()
      reads this
    {
      && color.Keys <= nodes.Keys
      && Distinct(order)
      && (forall x :: x in order <==> x in color && color[x] == Black)
      && DependenciesFirst(nodes, order)
      && (forall x :: x in inCycle ==> x in color && ReachesCycle(nodes, x))
    }

    /** A gray service is on the search stack or known to reach a cycle. */
    ghost predicate GrayExplained(stack: seq<ServiceID>)
      reads this
    {
      forall x :: x in color && color[x] == Gray ==> x in stack || x in inCycle
    }

    ghost predicate OnStack(stack: seq<ServiceID>)
      reads this
    {
      forall x :: x in stack ==> x in color && color[x] == Gray
    }

    twostate predicate Grew()
      reads this
    {
      && old(order) <= order && old(inCycle) <= inCycle
      && (forall x :: x in old(color) ==> x in color && color[x] == old(color[x]))
    }

    method Visit(id: ServiceID, ghost above: seq<ServiceID>) returns (ok: bool)
      requires Sound() && GrayExplained(above) && OnStack(above)
      requires id in nodes && id !in color && IsPath(nodes, above + [id])
      modifies this
      ensures Sound() && GrayExplained(above) && Grew()
      ensures id in color && (if ok then color[id] == Black else color[id] == Gray && id in inCycle)
      decreases nodes.Keys - color.Keys, 0
    {
      color := color[id := Gray];
      assert id in nodes.Keys - old(color.Keys) && id !in nodes.Keys - color.Keys;
      ok := FollowAll(id, above + [id]);
      if ok {
        Close(id, above);
      }
    }

    /** The loop over the dependencies; it stops at the first one that leads to a cycle. */
    method FollowAll(id: ServiceID, ghost stack: seq<ServiceID>) returns (ok: bool)
      requires Sound() && GrayExplained(stack) && OnStack(stack)
      requires id in nodes && IsPath(nodes, stack) && stack[|stack| - 1] == id
      modifies this
      ensures Sound() && GrayExplained(stack) && OnStack(stack) && Grew()
      ensures if ok then forall d :: d in nodes[id] && d in nodes ==> d in order else id in inCycle
      decreases nodes.Keys - color.Keys, 2
    {
      var deps := nodes[id];
      for i := 0 to |deps|
        invariant Sound() && GrayExplained(stack) && OnStack(stack) && Grew()
        invariant forall d :: d in deps[..i] && d in nodes ==> d in order
      {
        if deps[i] in nodes {
          ok := Follow(id, deps[i], stack);
          if !ok {
            return;
          }
        }
      }
      return true;
    }

    /** All dependencies of `id` are listed: list `id` and take it off the stack. */
    method Close(id: ServiceID, ghost above: seq<ServiceID>)
      requires Sound() && GrayExplained(above + [id]) && id in color && color[id] == Gray
      requires forall d :: d in nodes[id] && d in nodes ==> d in order
      modifies this
      ensures Sound() && GrayExplained(above) && inCycle == old(inCycle)
      ensures color == old(color)[id := Black] && order == old(order) + [id]
    {
      AppendListed(nodes, order, id);
      color := color[id := Black];
      order := order + [id];
    }

    /** One turn of the loop over the dependencies: the `switch` on the dependency's color. */
    method Follow(id: ServiceID, dep: ServiceID, ghost stack: seq<ServiceID>) returns (ok: bool)
      requires Sound() && GrayExplained(stack) && OnStack(stack)
      requires IsPath(nodes, stack) && stack[|stack| - 1] == id && Edge(nodes, id, dep)
      modifies this
      ensures Sound() && GrayExplained(stack) && OnStack(stack) && Grew()
      ensures if ok then dep in order else id in inCycle
      decreases nodes.Keys - color.Keys, 1
    {
      if dep in color && color[dep] == Gray {
        GrayDependency(stack, dep);
        inCycle := inCycle + {id, dep};
        return false;
      } else if dep !in color {
        assert IsPath(nodes, stack + [dep]);
        var visited := Visit(dep, stack);
        if !visited {
          CycleBehindEdge(nodes, id, dep);
          inCycle := inCycle + {id};
          return false;
        }
      }
      return true;
    }

    lemma GrayDependency(stack: seq<ServiceID>, dep: ServiceID)
      requires Sound() && GrayExplained(stack) && IsPath(nodes, stack) && Edge(nodes, stack[|stack| - 1], dep)
      requires dep in color && color[dep] == Gray
      ensures ReachesCycle(nodes, dep) && ReachesCycle(nodes, stack[|stack| - 1])
    {
      if dep in stack {
        LoopThroughStack(nodes, stack, dep);
      } else {
        CycleBehindEdge(nodes, stack[|stack| - 1], dep);
      }
    }
  }

  /** `order` and `cyclic` split the candidates: `order` holds exactly the services from which no cycle
      is reachable, each once and behind all its in-set dependencies. */
  method TopoSortDeployments(nodes: Nodes) returns (order: seq<ServiceID>, cyclic: set<ServiceID>)
    ensures Distinct(order) && DependenciesFirst(nodes, order)
    ensures forall x :: x in order <==> x in nodes && !ReachesCycle(nodes, x)
    ensures forall x :: x in cyclic <==> x in nodes && ReachesCycle(nodes, x)
  {
    var s := new Sorter(nodes);
    var ids := nodes.Keys;
    while ids != {}
      invariant s.nodes == nodes && s.Sound() && s.GrayExplained([])
      invariant forall x :: x in nodes && x !in ids ==> x in s.color
      decreases ids
    {
      var id :| id in ids;
      ids := ids - {id};
      if id !in s.color {
        assert IsPath(nodes, [] + [id]);
        var _ := s.Visit(id, []);
      }
    }
    order, cyclic := s.order, s.inCycle;
    forall x | x in order ensures !ReachesCycle(nodes, x) {
      ListedReachesNoCycle(nodes, order, x);
    }
  }
}
