/**
 The cycle check of the configuration validator. The search keeps only the current path (a node is
 forgotten when the search backs out of it), so it walks every simple path of the composite graph;
 its termination measure is the set of composites not on the stack.
 */
module CompositeCycle {
  type Name = string

  /** Composite name to the names of its children; children that are no key are plain sinks. */
  type Graph = map<Name, seq<Name>>

  ghost predicate Edge(g: Graph, a: Name, b: Name) {
    a in g && b in g[a] && b in g
  }

  ghost predicate Walk(g: Graph, w: seq<Name>) {
    |w| > 0 && forall i | 0 <= i < |w| - 1 :: Edge(g, w[i], w[i + 1])
  }

  ghost predicate Distinct(w: seq<Name>) {
    forall i, j | 0 <= i < j < |w| :: w[i] != w[j]
  }

  /** A walk that ends by coming back to a node it has already visited. */
  ghost predicate Lasso(g: Graph, start: Name, w: seq<Name>) {
    && Walk(g, w) && |w| > 1 && w[0] == start
    && exists i :: 0 <= i < |w| - 1 && w[i] == w[|w| - 1]
  }

  ghost predicate CycleReachable(g: Graph, start: Name) {
    exists w :: Lasso(g, start, w)
  }

  /** No walk from n comes back to the stack or repeats a node. */
  ghost predicate Clear(g: Graph, n: Name, stack: set<Name>) {
    forall w | Walk(g, w) && w[0] == n :: Distinct(w) && forall x | x in w :: x !in stack
  }

  function Nodes(path: seq<Name>): set<Name> { set n | n in path }

  lemma WalkTail(g: Graph, w: seq<Name>)
    requires Walk(g, w) && |w| > 1
    ensures Walk(g, w[1..]) && Edge(g, w[0], w[1])
  {
  }

  lemma WalkAppend(g: Graph, w: seq<Name>, n: Name)
    requires Walk(g, w) && Edge(g, w[|w| - 1], n)
    ensures Walk(g, w + [n])
  {
  }

  lemma ClosesLasso(g: Graph, w: seq<Name>, n: Name)
    requires Walk(g, w) && Edge(g, w[|w| - 1], n) && n in w
    ensures Lasso(g, w[0], w + [n])
  {
    WalkAppend(g, w, n);
    var i :| 0 <= i < |w| && w[i] == n;
    assert (w + [n])[i] == n;
  }

  /** When every composite child is clear of the stack extended by n, so is n of the stack. */
  lemma ChildrenClear(g: Graph, n: Name, stack: set<Name>)
    requires n !in stack
    requires forall c | Edge(g, n, c) :: c !in stack && c != n && Clear(g, c, stack + {n})
    ensures Clear(g, n, stack) && stack + {n} - {n} == stack
  {
    forall w | Walk(g, w) && w[0] == n ensures Distinct(w) && forall x | x in w :: x !in stack {
      if |w| > 1 {
        WalkTail(g, w);
        assert Clear(g, w[1], stack + {n});
        var t := w[1..];
        assert Distinct(t) && forall x | x in t :: x !in stack + {n};
        assert forall i | 1 <= i < |w| :: w[i] == t[i - 1] && w[i] in t;
      }
    }
  }

  /** The state the dfs closure shares with compositeCycle. */
  class Search {
    var onStack: set<Name>
    var path: seq<Name>

    constructor ()
      ensures onStack == {} && path == []
    {
      onStack, path := {}, [];
    }

    method Dfs(g: Graph, n: Name) returns (found: bool)
      requires onStack == Nodes(path) && n !in path && Walk(g, path + [n])
      requires path == [] || n in g
      modifies this
      ensures found ==> old(path) + [n] <= path && Lasso(g, path[0], path)
      ensures !found ==> path == old(path) && onStack == old(onStack) && Clear(g, n, old(onStack))
      decreases g.Keys - onStack
    {
      ghost var stack := onStack;
      onStack := onStack + {n};
      path := path + [n];
      var children := if n in g then g[n] else [];
      for k := 0 to |children|
        invariant path == old(path) + [n] && onStack == stack + {n} && onStack == Nodes(path)
        invariant forall i | 0 <= i < k && children[i] in g ::
                    children[i] !in onStack && Clear(g, children[i], onStack)
      {
        var c := children[k];
        if c !in g {
          continue;
        }
        assert Edge(g, n, c);
        if c in onStack {
          ClosesLasso(g, path, c);
          path := path + [c];
          return true;
        }
        WalkAppend(g, path, c);
        var deeper := Dfs(g, c);
        if deeper {
          return true;
        }
      }
      ChildrenClear(g, n, stack);
      onStack := onStack - {n};
      path := path[..|path| - 1];
      assert path == old(path);
      return false;
    }
  }

  /** strings.Join(path, " -> ") */
  function Render(path: seq<Name>): string {
    if path == [] then ""
    else if |path| == 1 then path[0]
    else path[0] + " -> " + Render(path[1..])
  }

  /** The names in order, an arrow between any two. */
  lemma {:induction false} RenderAppends(path: seq<Name>, n: Name)
    ensures Render(path + [n]) == if path == [] then n else Render(path) + " -> " + n
  {
    if path != [] {
      var tail := path[1..];
      RenderAppends(tail, n);
      assert (path + [n])[1..] == tail + [n];
      if tail != [] {
        assert Render(path + [n]) == path[0] + " -> " + (Render(tail) + " -> " + n);
      }
    }
  }

  lemma ClearMeansNoCycle(g: Graph, start: Name)
    requires Clear(g, start, {})
    ensures !CycleReachable(g, start)
  {
  }

  /** Empty exactly when no cycle is reachable; otherwise the rendering of a walk that closes one. */
  method CompositeCycle(g: Graph, start: Name) returns (rendered: string, ghost path: seq<Name>)
    ensures rendered == "" <==> !CycleReachable(g, start)
    ensures rendered != "" ==> Lasso(g, start, path) && rendered == Render(path)
  {
    var search := new Search();
    assert [] + [start] == [start];
    var found := search.Dfs(g, start);
    path := search.path;
    if found {
      assert Lasso(g, start, path);
      assert |Render(path)| >= 4;
      return Render(search.path), path;
    }
    ClearMeansNoCycle(g, start);
    return "", path;
  }

  // ----- cycles and the length of walks --------------------------------------------------------

  /** Some walk from n takes k edges. */
  ghost predicate CanWalk(g: Graph, n: Name, k: nat)
    decreases k
  {
    k == 0 || exists c :: Edge(g, n, c) && CanWalk(g, c, k - 1)
  }

  lemma WalkOn(g: Graph, n: Name, k: nat) returns (c: Name)
    requires k > 0 && CanWalk(g, n, k)
    ensures Edge(g, n, c) && CanWalk(g, c, k - 1)
  {
    c :| Edge(g, n, c) && CanWalk(g, c, k - 1);
  }

  /** From anywhere on a lasso one can walk for ever. */
  lemma {:induction false} LassoIsEndless(g: Graph, start: Name, w: seq<Name>, j: nat, k: nat)
    requires Lasso(g, start, w) && j < |w|
    ensures CanWalk(g, w[j], k)
    decreases k
  {
    if k > 0 {
      var i :| 0 <= i < |w| - 1 && w[i] == w[|w| - 1];
      var at := if j == |w| - 1 then i else j;
      assert Edge(g, w[at], w[at + 1]);
      LassoIsEndless(g, start, w, at + 1, k - 1);
    }
  }

  lemma {:induction false} WalkExists(g: Graph, n: Name, k: nat) returns (w: seq<Name>)
    requires CanWalk(g, n, k)
    ensures Walk(g, w) && w[0] == n && |w| == k + 1
    decreases k
  {
    if k == 0 {
      w := [n];
    } else {
      var c :| Edge(g, n, c) && CanWalk(g, c, k - 1);
      var t := WalkExists(g, c, k - 1);
      w := [n] + t;
      forall i | 0 <= i < |w| - 1 ensures Edge(g, w[i], w[i + 1]) {
        if i > 0 { assert Edge(g, t[i - 1], t[i - 1 + 1]); }
      }
    }
  }

  lemma {:induction false} DistinctFits(w: seq<Name>, s: set<Name>)
    requires Distinct(w) && Nodes(w) <= s
    ensures |w| <= |s|
  {
    if w != [] {
      var last := w[|w| - 1];
      var front := w[..|w| - 1];
      assert last in w && last !in front;
      forall x | x in front ensures x in s - {last} { assert x in Nodes(w); }
      DistinctFits(front, s - {last});
    }
  }

  /** A walk longer than the number of composites closes a cycle. */
  lemma LongWalkCloses(g: Graph, n: Name, w: seq<Name>)
    requires Walk(g, w) && w[0] == n && |w| > |g.Keys| + 1
    ensures CycleReachable(g, n)
  {
    var t := w[1..];
    forall x | x in t ensures x in g {
      var i :| 0 <= i < |t| && t[i] == x;
      assert Edge(g, w[i], w[i + 1]);
    }
    if Distinct(t) { DistinctFits(t, g.Keys); }
    var i, j :| 0 <= i < j < |t| && t[i] == t[j];
    var head := w[..j + 2];
    assert head[i + 1] == head[|head| - 1];
    forall m | 0 <= m < |head| - 1 ensures Edge(g, head[m], head[m + 1]) {
      assert Edge(g, w[m], w[m + 1]);
    }
    assert Lasso(g, n, head);
  }

  /** A cycle is reachable exactly when walks do not run out. */
  lemma CycleIffEndless(g: Graph, n: Name, k: nat)
    ensures CycleReachable(g, n) ==> CanWalk(g, n, k)
    ensures CanWalk(g, n, |g.Keys| + 1) ==> CycleReachable(g, n)
  {
    if CycleReachable(g, n) {
      var w :| Lasso(g, n, w);
      LassoIsEndless(g, n, w, 0, k);
    }
    if CanWalk(g, n, |g.Keys| + 1) {
      var w := WalkExists(g, n, |g.Keys| + 1);
      LongWalkCloses(g, n, w);
    }
  }
}
