/** The task board's dependency checks: a depth-first search with grey and black sets over the tasks, and
    a single pass over the releases. */
module BoardCycles {
  import opened Wrappers

  datatype Task = Task(key: string, release: string, dependsOn: seq<string>)

  datatype Release = Release(version: string, dependsOn: seq<string>)

  datatype Fault =
    | DuplicateTask
    | DuplicateRelease
    | ReleaseOrder(version: string)
    | UnknownRelease(key: string)
    | UnknownOrSelf(key: string)
    | DependencyCycle(key: string)

  /** What each task depends on. */
  type Graph = map<string, seq<string>>

  predicate Closed(graph: Graph) {
    forall k, d :: k in graph && d in graph[k] ==> d in graph
  }

  predicate IsPath(graph: Graph, path: seq<string>) {
    && (forall i :: 0 <= i < |path| ==> path[i] in graph)
    && (forall i :: 0 < i < |path| ==> path[i] in graph[path[i - 1]])
  }

  /** A walk along at least one dependency that comes back to `key`. */
  predicate IsCycle(graph: Graph, cycle: seq<string>, key: string) {
    IsPath(graph, cycle) && |cycle| > 1 && cycle[0] == key && cycle[|cycle| - 1] == key
  }

  ghost predicate OnCycle(graph: Graph, key: string) {
    exists cycle :: IsCycle(graph, cycle, key)
  }

  ghost predicate Acyclic(graph: Graph) {
    forall key :: key in graph ==> !OnCycle(graph, key)
  }

  // ---------------------------------------------------------------- orders that put dependencies first

  predicate DependenciesFirst(graph: Graph, order: seq<string>) {
    forall i :: 0 <= i < |order| ==>
      order[i] in graph && forall d :: d in graph[order[i]] ==> d in order[..i]
  }

  function PositionOf(order: seq<string>, key: string): (i: nat)
    requires key in order
    ensures i < |order| && order[i] == key && key !in order[..i]
  {
    if order[0] == key then 0 else
      assert order == [order[0]] + order[1..];
      var i := PositionOf(order[1..], key) + 1;
      assert order[..i] == [order[0]] + order[1..][..i - 1];
      i
  }

  lemma FirstPosition(order: seq<string>, key: string, j: nat)
    requires j < |order| && order[j] == key
    ensures PositionOf(order, key) <= j
  {
    var i := PositionOf(order, key);
    forall k | 0 <= k < i ensures order[k] != key {
      assert order[..i][k] == order[k];
    }
  }

  lemma DependencyIsEarlier(graph: Graph, order: seq<string>, key: string, dependency: string)
    requires DependenciesFirst(graph, order) && key in order && dependency in graph[key]
    ensures dependency in order && PositionOf(order, dependency) < PositionOf(order, key)
  {
    var i := PositionOf(order, key);
    assert dependency in order[..i];
    var j :| 0 <= j < i && order[j] == dependency;
    FirstPosition(order, dependency, j);
  }

  /** Along a walk, positions only go down. */
  lemma {:induction false} WalkDescends(graph: Graph, order: seq<string>, path: seq<string>)
    requires DependenciesFirst(graph, order) && IsPath(graph, path) && path != [] && path[0] in order
    ensures path[|path| - 1] in order
    ensures |path| > 1 ==> PositionOf(order, path[|path| - 1]) < PositionOf(order, path[0])
    decreases |path|
  {
    if |path| > 1 {
      DependencyIsEarlier(graph, order, path[0], path[1]);
      WalkDescends(graph, order, path[1..]);
    }
  }

  lemma OrderedIsAcyclic(graph: Graph, order: seq<string>)
    requires DependenciesFirst(graph, order) && forall k :: k in graph ==> k in order
    ensures Acyclic(graph)
  {
    forall key, cycle | key in graph ensures !IsCycle(graph, cycle, key) {
      if IsPath(graph, cycle) && |cycle| > 1 {
        WalkDescends(graph, order, cycle);
      }
    }
  }

  // ---------------------------------------------------------------- the depth-first search

  /** The grey set is the trail of calls in progress, each a dependency of the one before it. */
  ghost predicate Grey(graph: Graph, visiting: set<string>, trail: seq<string>) {
    IsPath(graph, trail) && (forall k :: k in visiting <==> k in trail)
  }

  /** The black set is closed: it can be listed with dependencies first. */
  ghost predicate Black(graph: Graph, visited: set<string>, order: seq<string>) {
    DependenciesFirst(graph, order) && (forall k :: k in visited <==> k in order)
  }

  predicate Follows(graph: Graph, trail: seq<string>, key: string) {
    key in graph && (trail != [] ==> trail[|trail| - 1] in graph && key in graph[trail[|trail| - 1]])
  }

  lemma GreyMeetsGrey(graph: Graph, visiting: set<string>, trail: seq<string>, key: string)
    requires Grey(graph, visiting, trail) && Follows(graph, trail, key) && key in visiting
    ensures OnCycle(graph, key)
  {
    var at := PositionOf(trail, key);
    assert IsCycle(graph, trail[at..] + [key], key);
  }

  lemma GreyGrows(graph: Graph, visiting: set<string>, trail: seq<string>, key: string)
    requires Grey(graph, visiting, trail) && Follows(graph, trail, key)
    ensures Grey(graph, visiting + {key}, trail + [key])
  {}

  lemma BlackGrows(graph: Graph, visited: set<string>, order: seq<string>, key: string)
    requires Black(graph, visited, order) && key in graph
    requires forall j :: 0 <= j < |graph[key]| ==> graph[key][j] in visited
    ensures Black(graph, visited + {key}, order + [key])
  {
    forall i | 0 <= i < |order + [key]|
      ensures (order + [key])[i] in graph
      ensures forall d :: d in graph[(order + [key])[i]] ==> d in (order + [key])[..i]
    {
      assert (order + [key])[..i] == order[..i];
    }
  }

  /** The search of one `validate` call: the tasks being visited and the tasks done. The ghost fields
      give the visiting tasks in the order of the calls, and the visited ones in the order they ended. */
  class Search {
    const graph: Graph
    var visiting: set<string>
    var visited: set<string>
    ghost var trail: seq<string>
    ghost var order: seq<string>

    constructor (graph: Graph)
      requires Closed(graph)
      ensures Valid() && this.graph == graph && trail == [] && visited == {}
    {
      this.graph := graph;
      visiting, visited := {}, {};
      trail, order := [], [];
    }

    ghost predicate Valid()
      reads this
    {
      Closed(graph) && Grey(graph, visiting, trail) && Black(graph, visited, order)
    }

    /** Visits a task and all it depends on; the result is a task found on a cycle, if any. */
    method Visit(key: string) returns (repeated: Option<string>)
      requires Valid() && Follows(graph, trail, key)
      modifies this`visiting, this`visited, this`trail, this`order
      decreases graph.Keys - visiting - visited
      ensures repeated.None? ==> Valid() && visiting == old(visiting) && trail == old(trail)
      ensures repeated.None? ==> key in visited && old(visited) <= visited
      ensures repeated.Some? ==> repeated.value in graph && OnCycle(graph, repeated.value)
    {
      if key in visiting {
        GreyMeetsGrey(graph, visiting, trail, key);
        return Some(key);
      }
      if key in visited {
        return None;
      }
      GreyGrows(graph, visiting, trail, key);
      visiting := visiting + {key};
      trail := trail + [key];
      for i := 0 to |graph[key]|
        invariant Valid() && visiting == old(visiting) + {key} && trail == old(trail) + [key]
        invariant old(visited) <= visited
        invariant forall j :: 0 <= j < i ==> graph[key][j] in visited
      {
        assert key in graph.Keys - old(visiting) - old(visited) && key !in graph.Keys - visiting - visited;
        repeated := Visit(graph[key][i]);
        if repeated.Some? {
          return;
        }
      }
      BlackGrows(graph, visited, order, key);
      visiting := visiting - {key};
      assert visiting == old(visiting);
      visited := visited + {key};
      trail := old(trail);
      order := order + [key];
      return None;
    }
  }

  /** Visits every task: the search ends without a find exactly when no task depends on itself,
      directly or through others. */
  method FindCycle(graph: Graph, keys: seq<string>) returns (repeated: Option<string>)
    requires Closed(graph) && forall k :: k in keys <==> k in graph
    ensures repeated.None? <==> Acyclic(graph)
    ensures repeated.Some? ==> repeated.value in graph && OnCycle(graph, repeated.value)
  {
    var search := new Search(graph);
    for i := 0 to |keys|
      invariant search.Valid() && fresh(search) && search.graph == graph && search.trail == []
      invariant forall j :: 0 <= j < i ==> keys[j] in search.visited
    {
      assert keys[i] in keys;
      repeated := search.Visit(keys[i]);
      if repeated.Some? {
        return;
      }
    }
    OrderedIsAcyclic(graph, search.order);
    return None;
  }

  // ---------------------------------------------------------------- the board

  ghost predicate DistinctTasks(tasks: seq<Task>) {
    forall i, j :: 0 <= i < j < |tasks| ==> tasks[i].key != tasks[j].key
  }

  ghost predicate DistinctReleases(releases: seq<Release>) {
    forall i, j :: 0 <= i < j < |releases| ==> releases[i].version != releases[j].version
  }

  /** Every release depends on earlier ones only. */
  ghost predicate ReleasesInOrder(releases: seq<Release>) {
    forall i :: 0 <= i < |releases| ==> DependsOnEarlier(releases, i)
  }

  predicate DependsOnEarlier(releases: seq<Release>, i: nat)
    requires i < |releases|
  {
    forall d :: d in releases[i].dependsOn ==> exists j :: 0 <= j < i && releases[j].version == d
  }

  ghost predicate TaskKnown(tasks: seq<Task>, releases: seq<Release>, task: Task) {
    && (exists r :: 0 <= r < |releases| && releases[r].version == task.release)
    && task.key !in task.dependsOn
    && forall d :: d in task.dependsOn ==> exists j :: 0 <= j < |tasks| && tasks[j].key == d
  }

  function GraphOf(tasks: seq<Task>): (graph: Graph)
    ensures forall k :: k in graph <==> exists i :: 0 <= i < |tasks| && tasks[i].key == k
  {
    if tasks == [] then map[]
    else
      assert forall i :: 0 <= i < |tasks| - 1 ==> tasks[i] == tasks[..|tasks| - 1][i];
      GraphOf(tasks[..|tasks| - 1])[tasks[|tasks| - 1].key := tasks[|tasks| - 1].dependsOn]
  }

  lemma {:induction false} GraphHolds(tasks: seq<Task>, i: nat)
    requires DistinctTasks(tasks) && i < |tasks|
    ensures tasks[i].key in GraphOf(tasks) && GraphOf(tasks)[tasks[i].key] == tasks[i].dependsOn
  {
    if i < |tasks| - 1 {
      GraphHolds(tasks[..|tasks| - 1], i);
    }
  }

  lemma KnownIsClosed(tasks: seq<Task>, releases: seq<Release>)
    requires DistinctTasks(tasks) && forall i :: 0 <= i < |tasks| ==> TaskKnown(tasks, releases, tasks[i])
    ensures Closed(GraphOf(tasks))
  {
    var graph := GraphOf(tasks);
    forall k, d | k in graph && d in graph[k] ensures d in graph {
      var i :| 0 <= i < |tasks| && tasks[i].key == k;
      GraphHolds(tasks, i);
      assert TaskKnown(tasks, releases, tasks[i]);
    }
  }

  function Keys(tasks: seq<Task>): (keys: seq<string>)
    ensures |keys| == |tasks| && forall i :: 0 <= i < |tasks| ==> keys[i] == tasks[i].key
  {
    seq(|tasks|, i requires 0 <= i < |tasks| => tasks[i].key)
  }

  function Versions(releases: seq<Release>): (versions: seq<string>)
    ensures |versions| == |releases| && forall i :: 0 <= i < |releases| ==> versions[i] == releases[i].version
  {
    seq(|releases|, i requires 0 <= i < |releases| => releases[i].version)
  }

  /** A release is in order exactly if it depends on versions that come before its own place. */
  lemma InOrderIff(releases: seq<Release>, i: nat)
    requires i < |releases|
    ensures DependsOnEarlier(releases, i) <==> forall d :: d in releases[i].dependsOn ==> d in Versions(releases)[..i]
  {
    var earlier := Versions(releases)[..i];
    forall d ensures d in earlier <==> exists j :: 0 <= j < i && releases[j].version == d {
      if j :| 0 <= j < i && releases[j].version == d { assert earlier[j] == d; }
      if d in earlier {
        var j :| 0 <= j < i && earlier[j] == d;
        assert releases[j].version == d;
      }
    }
  }

  /** Whether some element occurs twice. */
  method HasDuplicate(keys: seq<string>) returns (found: bool)
    ensures found <==> exists i, j :: 0 <= i < j < |keys| && keys[i] == keys[j]
  {
    var seen: set<string> := {};
    for n := 0 to |keys|
      invariant forall k :: k in seen <==> k in keys[..n]
      invariant forall i, j :: 0 <= i < j < n ==> keys[i] != keys[j]
    {
      if keys[n] in seen {
        return true;
      }
      seen := seen + {keys[n]};
    }
    return false;
  }

  /** The pass over the releases: the first one that depends on anything but earlier releases. */
  method FirstOutOfOrder(releases: seq<Release>) returns (at: nat)
    ensures at <= |releases|
    ensures at == |releases| <==> ReleasesInOrder(releases)
    ensures forall i :: 0 <= i < at ==> DependsOnEarlier(releases, i)
    ensures at < |releases| ==> !DependsOnEarlier(releases, at)
  {
    var prior: set<string> := {};
    for n := 0 to |releases|
      invariant forall k :: k in prior <==> exists j :: 0 <= j < n && releases[j].version == k
      invariant forall i :: 0 <= i < n ==> DependsOnEarlier(releases, i)
    {
      if exists d :: d in releases[n].dependsOn && d !in prior {
        assert !DependsOnEarlier(releases, n);
        return n;
      }
      prior := prior + {releases[n].version};
    }
    return |releases|;
  }

  ghost predicate Sound(tasks: seq<Task>, releases: seq<Release>) {
    && DistinctTasks(tasks) && DistinctReleases(releases) && ReleasesInOrder(releases)
    && (forall i :: 0 <= i < |tasks| ==> TaskKnown(tasks, releases, tasks[i]))
    && Acyclic(GraphOf(tasks))
  }

  /** The dependency part of the board check accepts exactly the sound boards, and a task named as being
      on a cycle is on one. */
  method Validate(tasks: seq<Task>, releases: seq<Release>) returns (fault: Option<Fault>)
    ensures fault.None? <==> Sound(tasks, releases)
    ensures fault.Some? && fault.value.DependencyCycle? ==>
        DistinctTasks(tasks) && OnCycle(GraphOf(tasks), fault.value.key)
  {
    var duplicate := HasDuplicate(Keys(tasks));
    if duplicate { return Some(DuplicateTask); }
    duplicate := HasDuplicate(Versions(releases));
    if duplicate { return Some(DuplicateRelease); }
    var at := FirstOutOfOrder(releases);
    if at < |releases| { return Some(ReleaseOrder(releases[at].version)); }
    for i := 0 to |tasks|
      invariant forall j :: 0 <= j < i ==> TaskKnown(tasks, releases, tasks[j])
    {
      if tasks[i].release !in Versions(releases) { return Some(UnknownRelease(tasks[i].key)); }
      if tasks[i].key in tasks[i].dependsOn || exists d :: d in tasks[i].dependsOn && d !in Keys(tasks) {
        return Some(UnknownOrSelf(tasks[i].key));
      }
    }
    KnownIsClosed(tasks, releases);
    var repeated := FindCycle(GraphOf(tasks), Keys(tasks));
    return if repeated.Some? then Some(DependencyCycle(repeated.value)) else None;
  }

  /** The order check alone already rules out cycles among releases. */
  lemma OrderedReleasesAreAcyclic(releases: seq<Release>)
    requires DistinctReleases(releases) && ReleasesInOrder(releases)
    ensures Acyclic(ReleaseGraph(releases))
  {
    var graph, order := ReleaseGraph(releases), Versions(releases);
    forall i | 0 <= i < |order|
      ensures order[i] in graph
      ensures forall d :: d in graph[order[i]] ==> d in order[..i]
    {
      ReleaseGraphHolds(releases, i);
      assert DependsOnEarlier(releases, i);
      forall d | d in releases[i].dependsOn ensures d in order[..i] {
        var j :| 0 <= j < i && releases[j].version == d;
        assert order[..i][j] == d;
      }
    }
    OrderedIsAcyclic(graph, order);
  }

  function ReleaseGraph(releases: seq<Release>): (graph: Graph)
    ensures forall k :: k in graph ==> k in Versions(releases)
  {
    if releases == [] then map[]
    else
      var n := |releases| - 1;
      assert forall i :: 0 <= i < n ==> Versions(releases)[i] == Versions(releases[..n])[i];
      assert Versions(releases)[n] == releases[n].version;
      ReleaseGraph(releases[..n])[releases[n].version := releases[n].dependsOn]
  }

  lemma {:induction false} ReleaseGraphHolds(releases: seq<Release>, i: nat)
    requires DistinctReleases(releases) && i < |releases|
    ensures releases[i].version in ReleaseGraph(releases)
    ensures ReleaseGraph(releases)[releases[i].version] == releases[i].dependsOn
  {
    if i < |releases| - 1 {
      ReleaseGraphHolds(releases[..|releases| - 1], i);
    }
  }
}
