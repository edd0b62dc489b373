/** The process tree of the user, and the processes below one of them. */
module ProcessTree {

  type Pid = nat

  /** Every process mapped to its children; nothing keeps a snapshot of /proc from being cyclic. */
  type Tree = map<Pid, seq<Pid>>

  predicate IsChild(tree: Tree, parent: Pid, child: Pid) {
    parent in tree && child in tree[parent]
  }

  predicate IsPath(tree: Tree, path: seq<Pid>) {
    path != [] && forall i :: 0 < i < |path| ==> IsChild(tree, path[i - 1], path[i])
  }

  ghost predicate Reaches(tree: Tree, root: Pid, pid: Pid) {
    exists path :: IsPath(tree, path) && path[0] == root && path[|path| - 1] == pid
  }

  predicate Distinct(s: seq<Pid>) {
    forall i, j :: 0 <= i < j < |s| ==> s[i] != s[j]
  }

  lemma ReachesSelf(tree: Tree, root: Pid)
    ensures Reaches(tree, root, root)
  {
    assert IsPath(tree, [root]);
  }

  lemma ReachesChild(tree: Tree, root: Pid, pid: Pid, child: Pid)
    requires Reaches(tree, root, pid) && IsChild(tree, pid, child)
    ensures Reaches(tree, root, child)
  {
    var path :| IsPath(tree, path) && path[0] == root && path[|path| - 1] == pid;
    assert IsPath(tree, path + [child]);
  }

  ghost predicate Closed(tree: Tree, pids: set<Pid>) {
    forall parent, child :: parent in pids && IsChild(tree, parent, child) ==> child in pids
  }

  lemma {:induction false} PathStaysInside(tree: Tree, pids: set<Pid>, path: seq<Pid>)
    requires Closed(tree, pids) && IsPath(tree, path) && path[0] in pids
    ensures path[|path| - 1] in pids
  {
    if |path| > 1 {
      PathStaysInside(tree, pids, path[..|path| - 1]);
    }
  }

  /** The closed sets around the root are exactly what the paths from it cannot leave. */
  lemma ClosedCoversReachable(tree: Tree, pids: set<Pid>, root: Pid, pid: Pid)
    requires Closed(tree, pids) && root in pids && Reaches(tree, root, pid)
    ensures pid in pids
  {
    var path :| IsPath(tree, path) && path[0] == root && path[|path| - 1] == pid;
    PathStaysInside(tree, pids, path);
  }

  ghost function Elements(s: seq<Pid>): set<Pid> {
    set pid | pid in s
  }

  ghost function Universe(tree: Tree, root: Pid): set<Pid> {
    {root} + set parent, i | parent in tree && 0 <= i < |tree[parent]| :: tree[parent][i]
  }

  /** A process and everything below it, each once, on any child map whatsoever. */
  method Subtree(tree: Tree, root: Pid) returns (found: seq<Pid>)
    ensures Distinct(found)
    ensures forall pid :: pid in found <==> Reaches(tree, root, pid)
  {
    found := [root];
    var queue := [root];
    ReachesSelf(tree, root);
    while queue != []
      invariant Distinct(found) && root in found
      invariant Elements(found) <= Universe(tree, root)
      invariant forall pid :: pid in queue ==> pid in found
      invariant forall pid :: pid in found ==> Reaches(tree, root, pid)
      invariant forall pid, child :: pid in found && pid !in queue && IsChild(tree, pid, child) ==> child in found
      decreases Universe(tree, root) - Elements(found), |queue|
    {
      var pid := queue[|queue| - 1];
      ghost var rest := queue[..|queue| - 1];
      assert queue == rest + [pid];
      queue := queue[..|queue| - 1];
      if pid in tree {
        ghost var seen := found;
        found, queue := AddChildren(tree, root, pid, found, queue);
        if found != seen {
          ghost var x :| x in found && x !in seen;
          assert x in Universe(tree, root) - Elements(seen) && x !in Universe(tree, root) - Elements(found);
        }
      }
    }
    forall pid | Reaches(tree, root, pid) ensures pid in found {
      ClosedCoversReachable(tree, Elements(found), root, pid);
    }
  }

  /** The body of the worklist loop: the unseen children of one process join both lists. */
  method AddChildren(tree: Tree, ghost root: Pid, pid: Pid, found0: seq<Pid>, queue0: seq<Pid>)
    returns (found: seq<Pid>, queue: seq<Pid>)
    requires pid in tree && Distinct(found0) && Reaches(tree, root, pid)
    requires Elements(found0) <= Universe(tree, root)
    requires forall x :: x in queue0 ==> x in found0
    requires forall x :: x in found0 ==> Reaches(tree, root, x)
    ensures Distinct(found) && Elements(found0) <= Elements(found) <= Universe(tree, root)
    ensures forall x :: x in found0 ==> x in found
    ensures forall x :: x in queue <==> x in queue0 || (x in found && x !in found0)
    ensures forall x :: x in found ==> Reaches(tree, root, x)
    ensures forall child :: child in tree[pid] ==> child in found
    ensures found == found0 ==> queue == queue0
    ensures found != found0 ==> exists x :: x in found && x !in found0
  {
    found, queue := found0, queue0;
    for i := 0 to |tree[pid]|
      invariant Distinct(found) && Elements(found0) <= Elements(found) <= Universe(tree, root)
      invariant forall x :: x in queue <==> x in queue0 || (x in found && x !in found0)
      invariant forall x :: x in found ==> Reaches(tree, root, x)
      invariant forall j :: 0 <= j < i ==> tree[pid][j] in found
      invariant found == found0 ==> queue == queue0
      invariant found != found0 ==> exists x :: x in found && x !in found0
      invariant forall x :: x in found0 ==> x in found
    {
      var child := tree[pid][i];
      if child !in found {
        ReachesChild(tree, root, pid, child);
        found := found + [child];
        queue := queue + [child];
        assert child in found && child !in found0;
      }
    }
  }
}
