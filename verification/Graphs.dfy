/** Reachability in a finite directed graph, cycles included. */
module Graphs {

  /** The successors of each node; all of them are nodes. */
  type Graph<T> = map<T, set<T>>

  ghost predicate IsPath<T>(graph: Graph<T>, path: seq<T>) {
    && path != [] && (forall i | 0 <= i < |path| :: path[i] in graph)
    && forall i | 0 <= i < |path| - 1 :: path[i + 1] in graph[path[i]]
  }

  ghost predicate IsPathTo<T>(graph: Graph<T>, path: seq<T>, f: T, g: T) {
    IsPath(graph, path) && path[0] == f && path[|path| - 1] == g
  }

  ghost predicate Reaches<T(!new)>(graph: Graph<T>, f: T, g: T) {
    exists path :: IsPathTo(graph, path, f, g)
  }

  /** Some node of `from` reaches `g`. */
  ghost predicate ReachedFrom<T(!new)>(graph: Graph<T>, from: set<T>, g: T) {
    exists f :: f in from && Reaches(graph, f, g)
  }

  ghost predicate Closed<T>(graph: Graph<T>, nodes: set<T>) {
    forall f | f in nodes :: f in graph && graph[f] <= nodes
  }

  lemma ReachesItself<T(!new)>(graph: Graph<T>, f: T)
    requires f in graph
    ensures Reaches(graph, f, f)
  {
    assert IsPathTo(graph, [f], f, f);
  }

  lemma ReachesOn<T(!new)>(graph: Graph<T>, f: T, g: T, h: T)
    requires Reaches(graph, f, g) && g in graph && h in graph[g] && h in graph
    ensures Reaches(graph, f, h)
  {
    var path :| IsPathTo(graph, path, f, g);
    assert IsPathTo(graph, path + [h], f, h);
  }

  lemma ReachesBefore<T(!new)>(graph: Graph<T>, f: T, g: T, h: T)
    requires f in graph && g in graph[f] && Reaches(graph, g, h)
    ensures Reaches(graph, f, h)
  {
    var path :| IsPathTo(graph, path, g, h);
    assert IsPathTo(graph, [f] + path, f, h);
  }

  /** A closed set holds whatever its members reach. */
  lemma {:induction false} ClosedHolds<T>(graph: Graph<T>, nodes: set<T>, path: seq<T>, i: nat)
    requires Closed(graph, nodes) && IsPath(graph, path) && path[0] in nodes && i < |path|
    ensures path[i] in nodes
  {
    if i > 0 {
      ClosedHolds(graph, nodes, path, i - 1);
    }
  }

  lemma ClosedHoldsReached<T(!new)>(graph: Graph<T>, nodes: set<T>, f: T, g: T)
    requires Closed(graph, nodes) && f in nodes && Reaches(graph, f, g)
    ensures g in nodes
  {
    var path :| IsPathTo(graph, path, f, g);
    ClosedHolds(graph, nodes, path, |path| - 1);
  }

  // ---------------------------------------------------------------------------------------------
  // Worklists
  // ---------------------------------------------------------------------------------------------

  /** A worklist that started with `before` done adds what `from` reaches: whatever is done or pending is
      there for a reason, and what the done nodes lead to is done or pending. */
  ghost predicate Marking<T(!new)>(graph: Graph<T>, from: set<T>, before: set<T>, done: set<T>, pending: set<T>) {
    && before <= done <= graph.Keys
    && (forall g | g in done - before :: ReachedFrom(graph, from, g))
    && (forall g | g in pending && g in graph :: ReachedFrom(graph, from, g))
    && (forall g | g in done :: graph[g] <= done + pending)
  }

  /** A pending node is done, and what it leads to becomes pending. */
  lemma MarkMore<T(!new)>(graph: Graph<T>, from: set<T>, before: set<T>, done: set<T>, pending: set<T>, g: T)
    requires Marking(graph, from, before, done, pending) && g in pending && g in graph
    ensures Marking(graph, from, before, done + {g}, pending + graph[g])
  {
    var f :| f in from && Reaches(graph, f, g);
    forall h | h in graph[g] && h in graph ensures ReachedFrom(graph, from, h) {
      ReachesOn(graph, f, g, h);
    }
  }

  /** A node that is done or not in the graph is no longer pending. */
  lemma Scanned<T(!new)>(graph: Graph<T>, from: set<T>, before: set<T>, done: set<T>, pending: set<T>, g: T)
    requires Marking(graph, from, before, done, pending + {g}) && (g in done || g !in graph)
    requires forall f | f in graph :: graph[f] <= graph.Keys
    ensures Marking(graph, from, before, done, pending)
  {
  }

  /** Pending nodes that are not in the graph do not matter. */
  lemma PendingMore<T(!new)>(graph: Graph<T>, from: set<T>, before: set<T>, done: set<T>, pending: set<T>, more: set<T>)
    requires Marking(graph, from, before, done, pending) && more * graph.Keys <= pending <= more
    ensures Marking(graph, from, before, done, more)
  {
  }

  /** With nothing pending, exactly what `from` reaches was added to a closed set. */
  lemma Finished<T(!new)>(graph: Graph<T>, from: set<T>, before: set<T>, done: set<T>)
    requires Marking(graph, from, before, done, {}) && from * graph.Keys <= done && Closed(graph, before)
    ensures Closed(graph, done)
    ensures forall g :: g in done <==> g in before || ReachedFrom(graph, from, g)
  {
    forall g | ReachedFrom(graph, from, g) ensures g in done {
      var f :| f in from && Reaches(graph, f, g);
      assert f in graph by {
        var path :| IsPathTo(graph, path, f, g);
      }
      ClosedHoldsReached(graph, done, f, g);
    }
  }

  lemma Fewer<T>(all: set<T>, done: set<T>, done': set<T>)
    requires done <= done' <= all
    ensures |all - done'| <= |all - done| && (done' != done ==> |all - done'| < |all - done|)
  {
    assert all - done == (all - done') + (done' - done);
    if done' != done {
      var x :| x in done' - done;
    }
  }
}
