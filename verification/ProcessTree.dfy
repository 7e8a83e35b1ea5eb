/** The worklist that finds a process's descendants in one snapshot of the process table. */
module ProcessTree {
  import opened Names

  /** The pids listed under each parent. A racy snapshot may list anything, cycles included. */
  type Table = map<int, seq<int>>

  function ChildrenOf(t: Table, pid: int): seq<int> {
    if pid in t then t[pid] else []
  }

  /** A chain of parents and children from `root` to `pid`. */
  predicate Chain(t: Table, root: int, path: seq<int>, pid: int) {
    && path != [] && path[0] == root && path[|path| - 1] == pid
    && forall i :: 0 <= i < |path| - 1 ==> path[i] in t && path[i + 1] in t[path[i]]
  }

  ghost predicate Reachable(t: Table, root: int, pid: int) {
    exists path :: Chain(t, root, path, pid)
  }

  lemma RootIsReachable(t: Table, root: int)
    ensures Reachable(t, root, root)
  {
    assert Chain(t, root, [root], root);
  }

  lemma ChildIsReachable(t: Table, root: int, parent: int, child: int)
    requires Reachable(t, root, parent) && child in ChildrenOf(t, parent)
    ensures Reachable(t, root, child)
  {
    var path :| Chain(t, root, path, parent);
    assert Chain(t, root, path + [child], child);
  }

  /** A set that holds the root and every child of its members holds everything reachable. */
  lemma {:induction false} ClosedHoldsReachable(t: Table, root: int, s: set<int>, path: seq<int>, pid: int)
    requires root in s && (forall p, c :: p in s && c in ChildrenOf(t, p) ==> c in s)
    requires Chain(t, root, path, pid)
    ensures pid in s
    decreases |path|
  {
    if |path| > 1 {
      var before := path[|path| - 2];
      assert Chain(t, root, path[..|path| - 1], before);
      ClosedHoldsReachable(t, root, s, path[..|path| - 1], before);
      assert path[|path| - 1] in ChildrenOf(t, path[|path| - 2]);
    }
  }

  /** Every pid the table mentions as a child. */
  function Listed(t: Table): set<int> {
    set p, i | p in t && 0 <= i < |t[p]| :: t[p][i]
  }

  /** All children of a pid are seen. */
  predicate Expanded(t: Table, seen: set<int>, pid: int) {
    forall c :: c in ChildrenOf(t, pid) ==> c in seen
  }

  /** What the search knows between two pids: the result holds the seen pids but the root, each
      once; all are reachable; and every seen pid is expanded or still queued. */
  ghost predicate Searched(t: Table, root: int, seen: set<int>, queue: seq<int>, result: seq<int>) {
    && root in seen && root !in result && Distinct(result)
    && (forall p :: p in seen <==> p == root || p in result)
    && (forall p :: p in seen ==> Reachable(t, root, p))
    && (forall p :: p in queue ==> p in seen)
    && seen <= {root} + Listed(t)
  }

  ghost predicate Frontier(t: Table, seen: set<int>, queue: seq<int>) {
    forall p :: p in seen ==> Expanded(t, seen, p) || p in queue
  }

  lemma AddChild(t: Table, root: int, seen: set<int>, queue: seq<int>, result: seq<int>, parent: int, child: int)
    requires Searched(t, root, seen, queue, result) && child !in seen
    requires Reachable(t, root, parent) && child in ChildrenOf(t, parent)
    ensures Searched(t, root, seen + {child}, queue + [child], result + [child])
  {
    hide Reachable;
    ChildIsReachable(t, root, parent, child);
    assert child in Listed(t) by {
      var i :| 0 <= i < |t[parent]| && t[parent][i] == child;
    }
    assert forall i :: 0 <= i < |result| ==> result[i] in result;
  }

  method Descendants(children: Table, root: int) returns (result: seq<int>)
    ensures Distinct(result) && root !in result
    ensures forall pid :: pid in result <==> pid != root && Reachable(children, root, pid)
  {
    hide Reachable, Listed;
    var seen := {root};
    var queue := [root];
    result := [];
    RootIsReachable(children, root);
    while |queue| > 0
      invariant Searched(children, root, seen, queue, result)
      invariant Frontier(children, seen, queue)
      decreases {root} + Listed(children) - seen, |queue|
    {
      var parent := queue[0];
      assert queue == [parent] + queue[1..];
      ghost var before := seen;
      queue := queue[1..];
      ghost var waiting := queue;
      var kids := ChildrenOf(children, parent);
      for i := 0 to |kids|
        invariant Searched(children, root, seen, queue, result)
        invariant before <= seen && (seen == before ==> queue == waiting)
        invariant forall j :: 0 <= j < i ==> kids[j] in seen
        invariant forall p :: p in seen && p != parent ==> Expanded(children, seen, p) || p in queue
      {
        var child := kids[i];
        if child in seen {
          continue;
        }
        AddChild(children, root, seen, queue, result, parent, child);
        StillExpanded(children, seen, child);
        seen := seen + {child};
        result := result + [child];
        queue := queue + [child];
      }
      assert Expanded(children, seen, parent);
    }
    AllFound(children, root, seen, result);
  }

  lemma StillExpanded(t: Table, seen: set<int>, child: int)
    ensures forall p :: Expanded(t, seen, p) ==> Expanded(t, seen + {child}, p)
  {
  }

  lemma AllFound(t: Table, root: int, seen: set<int>, result: seq<int>)
    requires Searched(t, root, seen, [], result) && Frontier(t, seen, [])
    ensures forall pid :: pid in result <==> pid != root && Reachable(t, root, pid)
  {
    hide Listed;
    forall pid | Reachable(t, root, pid) ensures pid in seen {
      var path :| Chain(t, root, path, pid);
      assert forall p :: p in seen ==> Expanded(t, seen, p);
      ClosedHoldsReachable(t, root, seen, path, pid);
    }
  }
}
