/** The dependency checks of `internal/tasks/deps.go`: existence of every listed id, and a
  * depth-first search for the task itself among its transitive dependencies. */
module DependencySearch {
  import opened Wrappers
  import opened TaskTable

  /** Go's `visited map[int64]bool`, shared by reference between all recursive calls and all roots. */
  class Visited {
    var ids: set<TaskId>

    constructor ()
      ensures ids == {}
    {
      ids := {};
    }
  }

  datatype DepsError = NotFound(dep: TaskId) | CycleDetected

  /** The edges followed from `id`; a missing task has none. */
  function Deps(rows: Rows, id: TaskId): seq<TaskId>
  {
    if id in rows then rows[id].dependsOn else []
  }

  /** `path` runs from `a` to `b` along dependency edges; a single node is a path to itself. */
  ghost predicate Path(rows: Rows, a: TaskId, b: TaskId, path: seq<TaskId>)
  {
    && path != []
    && path[0] == a
    && path[|path| - 1] == b
    && forall i :: 0 < i < |path| ==> path[i] in Deps(rows, path[i - 1])
  }

  ghost predicate Reachable(rows: Rows, a: TaskId, b: TaskId)
  {
    exists path :: Path(rows, a, b, path)
  }

  lemma ReachesItself(rows: Rows, a: TaskId)
    ensures Reachable(rows, a, a)
  {
    assert Path(rows, a, a, [a]);
  }

  lemma ReachesThrough(rows: Rows, a: TaskId, d: TaskId, b: TaskId)
    requires d in Deps(rows, a) && Reachable(rows, d, b)
    ensures Reachable(rows, a, b)
  {
    var path :| Path(rows, d, b, path);
    assert Path(rows, a, b, [a] + path);
  }

  /** A path that starts inside a set closed under dependencies never leaves it. */
  lemma {:induction false} ClosedSetTrapsPaths(rows: Rows, closed: set<TaskId>, path: seq<TaskId>, a: TaskId, b: TaskId)
    requires Path(rows, a, b, path) && a in closed
    requires forall x, d :: x in closed && d in Deps(rows, x) ==> d in closed
    ensures b in closed
    decreases |path|
  {
    if |path| > 1 {
      assert path[1] in Deps(rows, path[0]);
      assert Path(rows, path[1], b, path[1..]) by {
        forall i | 0 < i < |path| - 1 ensures path[1..][i] in Deps(rows, path[1..][i - 1]) {
          assert path[i + 1] in Deps(rows, path[i]);
        }
      }
      ClosedSetTrapsPaths(rows, closed, path[1..], path[1], b);
    }
  }

  /** Depth-first search with a visited set that outlives the call. A `false` answer leaves the
    * target unvisited and every newly visited task with all its dependencies visited. */
  method HasCycle(rows: Rows, start: TaskId, target: TaskId, visited: Visited) returns (found: bool)
    requires target !in visited.ids
    modifies visited
    ensures old(visited.ids) <= visited.ids
    ensures found ==> Reachable(rows, start, target)
    ensures !found ==> start in visited.ids && target !in visited.ids
    ensures !found ==> forall x, d :: x in visited.ids - old(visited.ids) && d in Deps(rows, x) ==> d in visited.ids
    decreases rows.Keys - visited.ids
  {
    if start == target {
      ReachesItself(rows, start);
      return true;
    }
    if start in visited.ids {
      return false;
    }
    visited.ids := visited.ids + {start};
    if start !in rows {
      return false;
    }
    var deps := rows[start].dependsOn;
    for i := 0 to |deps|
      invariant old(visited.ids) + {start} <= visited.ids
      invariant target !in visited.ids
      invariant forall j :: 0 <= j < i ==> deps[j] in visited.ids
      invariant forall x, d :: x in visited.ids - old(visited.ids) - {start} && d in Deps(rows, x) ==> d in visited.ids
    {
      var hit := HasCycle(rows, deps[i], target, visited);
      if hit {
        ReachesThrough(rows, start, deps[i], target);
        return true;
      }
    }
    return false;
  }

  /** The answer is exact: a missing dependency is reported first; a new task (`selfId` 0) is never
    * searched; otherwise a cycle is reported exactly when the task is reachable from one of the
    * listed dependencies, whatever other cycles the graph has. */
  method ValidateDeps(rows: Rows, dependsOn: seq<TaskId>, selfId: TaskId) returns (r: Result<(), DepsError>)
    ensures r.Err? && r.error.NotFound? <==> exists d :: d in dependsOn && d !in rows
    ensures r.Err? && r.error.NotFound? ==> r.error.dep in dependsOn && r.error.dep !in rows
    ensures r == Err(CycleDetected) <==>
            && (forall d :: d in dependsOn ==> d in rows)
            && selfId != 0
            && exists d :: d in dependsOn && Reachable(rows, d, selfId)
  {
    for i := 0 to |dependsOn|
      invariant forall j :: 0 <= j < i ==> dependsOn[j] in rows
    {
      if dependsOn[i] !in rows {
        return Err(NotFound(dependsOn[i]));
      }
    }
    if selfId == 0 {
      return Ok(());
    }
    var visited := new Visited();
    for i := 0 to |dependsOn|
      invariant fresh(visited)
      invariant selfId !in visited.ids
      invariant forall j :: 0 <= j < i ==> dependsOn[j] in visited.ids
      invariant forall x, d :: x in visited.ids && d in Deps(rows, x) ==> d in visited.ids
    {
      var hit := HasCycle(rows, dependsOn[i], selfId, visited);
      if hit {
        return Err(CycleDetected);
      }
    }
    ghost var closed := visited.ids;
    forall d | d in dependsOn
      ensures !Reachable(rows, d, selfId)
    {
      if Reachable(rows, d, selfId) {
        var path :| Path(rows, d, selfId, path);
        ClosedSetTrapsPaths(rows, closed, path, d, selfId);
      }
    }
    return Ok(());
  }

  /** Every edge points to a smaller id, as it does when every task is created with existing
    * dependencies only. */
  predicate PointsDown(rows: Rows)
  {
    forall id, d :: id in rows && d in rows[id].dependsOn ==> d < id
  }

  /** Then nothing reachable from a task exceeds it, so a task about to get a larger id cannot be on
    * a cycle: skipping the search for new tasks loses nothing. */
  lemma {:induction false} ReachableGoesDown(rows: Rows, path: seq<TaskId>, a: TaskId, b: TaskId)
    requires PointsDown(rows) && Path(rows, a, b, path)
    ensures b <= a
    ensures |path| > 1 ==> b < a
    decreases |path|
  {
    if |path| > 1 {
      assert path[|path| - 1] in Deps(rows, path[|path| - 2]);
      assert Path(rows, a, path[|path| - 2], path[..|path| - 1]);
      ReachableGoesDown(rows, path[..|path| - 1], a, path[|path| - 2]);
    }
  }

  lemma NewTasksNeedNoSearch(rows: Rows, dependsOn: seq<TaskId>, newId: TaskId)
    requires PointsDown(rows)
    requires forall d :: d in dependsOn ==> d in rows
    requires forall id :: id in rows ==> id < newId
    ensures forall d :: d in dependsOn ==> !Reachable(rows, d, newId)
  {
    forall d | d in dependsOn
      ensures !Reachable(rows, d, newId)
    {
      if Reachable(rows, d, newId) {
        var path :| Path(rows, d, newId, path);
        ReachableGoesDown(rows, path, d, newId);
      }
    }
  }
}
