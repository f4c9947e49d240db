/** The order in which a release publishes its crates: depth first, dependencies before dependents. */
module PublishOrder {

  /** A workspace member; its name is its key in the graph. */
  datatype Member = Member(publish: bool, deps: seq<string>)

  type Graph = map<string, Member>

  /** An edge the traversal follows: into a publishable member. */
  predicate Edge(g: Graph, a: string, b: string) { a in g && b in g[a].deps && b in g && g[b].publish }

  ghost predicate Path(g: Graph, p: seq<string>) {
    p != [] && forall i, j | 0 <= i < j < |p| && j == i + 1 :: Edge(g, p[i], p[j])
  }

  ghost predicate From(g: Graph, p: seq<string>, a: string) { Path(g, p) && p[0] == a }

  ghost predicate Reaches(g: Graph, a: string, b: string) { exists p :: From(g, p, a) && p[|p| - 1] == b }

  /** A path that comes back to a node it has been at. */
  predicate Lasso(p: seq<string>, i: nat) { i < |p| - 1 && p[i] == p[|p| - 1] }

  ghost predicate ReachableCycle(g: Graph, root: string) { exists p, i :: From(g, p, root) && Lasso(p, i) }

  // ---- what the traversal keeps ---------------------------------------------

  predicate Distinct(order: seq<string>) { forall i, j | 0 <= i < j < |order| :: order[i] != order[j] }

  predicate Before(order: seq<string>, i: nat, n: string)
    requires i <= |order|
  {
    n in order[..i]
  }

  /** Every crate comes after the crates it depends on. */
  ghost predicate Topological(g: Graph, order: seq<string>) {
    forall i: nat, d | i < |order| && Edge(g, order[i], d) :: Before(order, i, d)
  }

  ghost predicate Closed(g: Graph, done: set<string>) { forall n, d | n in done && Edge(g, n, d) :: d in done }

  ghost predicate Sound(g: Graph, root: string, order: seq<string>, done: set<string>) {
    && Distinct(order) && Topological(g, order) && Closed(g, done)
    && (forall n :: n in order <==> n in done && n in g && g[n].publish)
    && (forall n | n in done :: n in g && Reaches(g, root, n))
  }

  // ---- the traversal --------------------------------------------------------

  class Traversal {
    const graph: Graph
    var order: seq<string>
    var done: set<string>
    var onStack: set<string>
    ghost const root: string
    ghost var stack: seq<string>

    ghost predicate Valid() reads this {
      && Sound(graph, root, order, done)
      && onStack == (set n | n in stack) && onStack !! done && onStack <= graph.Keys
      && (stack != [] ==> From(graph, stack, root))
    }

    constructor (graph: Graph, root: string)
      ensures Valid() && order == [] && done == {} && stack == [] && this.graph == graph && this.root == root
    {
      this.graph, this.root := graph, root;
      order, done, onStack, stack := [], {}, {}, [];
    }

    /** Whether `name` may be visited next: it is the root, or a dependency of the member on top. */
    ghost predicate Next(name: string) reads this {
      if stack == [] then name == root else Edge(graph, stack[|stack| - 1], name)
    }

    method Visit(name: string) returns (ok: bool)
      requires Valid() && Next(name)
      modifies this
      ensures ok ==> Valid() && stack == old(stack) && old(done) <= done && name in done
      ensures !ok ==> root !in graph || ReachableCycle(graph, root)
      decreases graph.Keys - onStack
    {
      if name in done { return true; }
      if name in onStack {
        PathSnoc(graph, stack, root, name);
        CycleFound(graph, stack, root, name);
        return false;
      }
      if name !in graph { return false; }
      Push(name);
      ghost var path := stack;
      var deps := graph[name].deps;
      for k := 0 to |deps|
        invariant Valid() && stack == path && onStack == old(onStack) + {name} && old(done) <= done
        invariant forall i | 0 <= i < k && Edge(graph, name, deps[i]) :: deps[i] in done
      {
        if deps[k] in graph && graph[deps[k]].publish {
          var fine := Visit(deps[k]);
          if !fine { return false; }
        }
      }
      Emit(name, old(stack));
      return true;
    }

    method Push(name: string)
      requires Valid() && Next(name) && name in graph && name !in done && name !in onStack
      modifies `onStack, `stack
      ensures Valid() && stack == old(stack) + [name] && onStack == old(onStack) + {name}
    {
      PathSnoc(graph, stack, root, name);
      onStack, stack := onStack + {name}, stack + [name];
    }

    /** All dependencies are done: the member leaves the stack and, if publishable, joins the order. */
    method Emit(name: string, ghost below: seq<string>)
      requires Valid() && name in graph && stack == below + [name] && name !in below
      requires forall i | 0 <= i < |graph[name].deps| && Edge(graph, name, graph[name].deps[i]) ::
               graph[name].deps[i] in done
      modifies this
      ensures Valid() && stack == below && done == old(done) + {name}
    {
      PathEnds(graph, stack, root);
      DepsDone(graph, name, done);
      Emitted(graph, root, order, done, name);
      PathInit(graph, below, name, root);
      stack, onStack := below, onStack - {name};
      done := done + {name};
      if graph[name].publish { order := order + [name]; }
    }
  }

  /**
   Each publishable crate reachable from the root once, after everything it depends on; or the reason there
   is no such order.
   */
  method Plan(graph: Graph, root: string) returns (ok: bool, order: seq<string>)
    ensures ok <==> root in graph && !ReachableCycle(graph, root)
    ensures ok ==> Distinct(order) && Topological(graph, order)
    ensures ok ==> forall n :: n in order <==> n in graph && graph[n].publish && Reaches(graph, root, n)
  {
    var t := new Traversal(graph, root);
    ok := t.Visit(root);
    order := t.order;
    if ok {
      Finished(graph, root, order, t.done);
    }
  }

  // ---- why ------------------------------------------------------------------

  lemma PathSnoc(g: Graph, stack: seq<string>, root: string, name: string)
    requires stack != [] ==> From(g, stack, root)
    requires if stack == [] then name == root else Edge(g, stack[|stack| - 1], name)
    ensures From(g, stack + [name], root)
  {
  }

  lemma PathInit(g: Graph, below: seq<string>, name: string, root: string)
    requires From(g, below + [name], root)
    ensures below != [] ==> From(g, below, root)
  {
    var p := below + [name];
    assert forall i | 0 <= i < |below| :: below[i] == p[i];
  }

  lemma CycleFound(g: Graph, stack: seq<string>, root: string, name: string)
    requires From(g, stack + [name], root) && name in stack
    ensures ReachableCycle(g, root)
  {
    var i :| 0 <= i < |stack| && stack[i] == name;
    var p := stack + [name];
    assert From(g, p, root) && Lasso(p, i);
  }

  lemma PathEnds(g: Graph, path: seq<string>, root: string)
    requires From(g, path, root)
    ensures Reaches(g, root, path[|path| - 1])
  {
  }

  lemma DepsDone(g: Graph, name: string, done: set<string>)
    requires name in g && forall i | 0 <= i < |g[name].deps| && Edge(g, name, g[name].deps[i]) ::
             g[name].deps[i] in done
    ensures forall d | Edge(g, name, d) :: d in done
  {
  }

  /** A member whose dependencies are done may be emitted. */
  lemma Emitted(g: Graph, root: string, order: seq<string>, done: set<string>, name: string)
    requires Sound(g, root, order, done) && name in g && name !in done && Reaches(g, root, name)
    requires forall d | Edge(g, name, d) :: d in done
    ensures Sound(g, root, if g[name].publish then order + [name] else order, done + {name})
  {
    var more := if g[name].publish then order + [name] else order;
    assert name !in order;
    forall i: nat, d | i < |more| && Edge(g, more[i], d)
      ensures Before(more, i, d)
    {
      assert more[..i] == order[..i];
      if i < |order| {
        assert Before(order, i, d);
      } else {
        assert order[..i] == order && d in order;
      }
    }
  }

  lemma {:induction false} ReachedIsDone(g: Graph, done: set<string>, p: seq<string>)
    requires Closed(g, done) && Path(g, p) && p[0] in done
    ensures forall n | n in p :: n in done
    decreases |p|
  {
    if |p| > 1 {
      var n := |p| - 1;
      assert Edge(g, p[n - 1], p[n]);
      ReachedIsDone(g, done, p[..n]);
      assert p[n - 1] in p[..n] && p == p[..n] + [p[n]];
    }
  }

  /** Along a path, positions in a topological order go down. */
  lemma {:induction false} PositionsFall(g: Graph, order: seq<string>, p: seq<string>, i: nat, j: nat, at: nat)
    requires Topological(g, order) && Path(g, p) && i < j < |p| && at < |order| && order[at] == p[i]
    ensures Before(order, at, p[j])
    decreases j
  {
    if i == j - 1 {
      assert Edge(g, p[i], p[j]);
    } else {
      PositionsFall(g, order, p, i, j - 1, at);
      var k :| 0 <= k < at && order[..at][k] == p[j - 1];
      assert order[k] == p[j - 1] && Edge(g, p[j - 1], p[j]);
      assert Before(order, k, p[j]);
      assert order[..k] <= order[..at];
    }
  }

  lemma {:induction false} NoLasso(g: Graph, root: string, order: seq<string>, done: set<string>, p: seq<string>,
                                   i: nat)
    requires Sound(g, root, order, done) && root in done && From(g, p, root) && i < |p| - 1
    ensures p[i] != p[|p| - 1]
  {
    ReachedIsDone(g, done, p);
    var n := |p| - 1;
    assert Edge(g, p[n - 1], p[n]) && p[n] in p && p[n] in order;
    if p[i] in order {
      var at :| 0 <= at < |order| && order[at] == p[i];
      PositionsFall(g, order, p, i, n, at);
      assert order[at] !in order[..at];
    }
  }

  lemma Finished(g: Graph, root: string, order: seq<string>, done: set<string>)
    requires Sound(g, root, order, done) && root in done
    ensures !ReachableCycle(g, root)
    ensures forall n :: n in order <==> n in g && g[n].publish && Reaches(g, root, n)
  {
    forall p, i: nat | From(g, p, root)
      ensures !Lasso(p, i)
    {
      if i < |p| - 1 {
        NoLasso(g, root, order, done, p, i);
      }
    }
    forall n | Reaches(g, root, n)
      ensures n in done
    {
      var p :| From(g, p, root) && p[|p| - 1] == n;
      ReachedIsDone(g, done, p);
      assert n in p;
    }
  }
}
