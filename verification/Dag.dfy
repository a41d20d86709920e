/** From planner output to a dependency graph whose edges point strictly backwards. */
module Dag {
  import opened Values

  /** deps[i] is the set of subtasks that must complete before subtask i may start. */
  type Deps = seq<set<nat>>

  ghost predicate Backward(deps: Deps) {
    forall i: nat, d: nat :: i < |deps| && d in deps[i] ==> d < i
  }

  /** `set(range(i))`. */
  function Range(i: nat): (r: set<nat>)
    ensures forall d: nat :: d in r <==> d < i
  {
    set d: nat | d < i && Earlier(d, i)
  }

  predicate Earlier(d: nat, i: nat) {
    d < i
  }

  lemma {:induction false} RangeSize(i: nat)
    ensures |Range(i)| == i
  {
    if i > 0 {
      RangeSize(i - 1);
      assert Range(i) == Range(i - 1) + {i - 1};
    } else {
      assert Range(0) == {};
    }
  }

  /** What the planner asked for: the listed indices, or everything earlier when the subtask lists
      nothing and did not opt into parallelism. */
  function Requested(ps: PlannedSubtask, i: nat): seq<int> {
    if ps.dependencies == [] && !ps.parallel then seq(i, k => k) else ps.dependencies
  }

  /** Of those, the edges that point to an earlier subtask. */
  function Edges(ps: PlannedSubtask, i: nat): set<nat> {
    set d: nat | d < i && d in Requested(ps, i)
  }

  /** The graph a plan denotes. */
  function DepsOf(subtasks: seq<PlannedSubtask>): (deps: Deps)
    ensures |deps| == |subtasks|
    ensures Backward(deps)
  {
    seq(|subtasks|, i requires 0 <= i < |subtasks| => Edges(subtasks[i], i))
  }

  /** Subtask i waits for d exactly when d is earlier and listed, or nothing is listed and the subtask did
      not opt into parallelism. */
  lemma EdgeIff(subtasks: seq<PlannedSubtask>, i: nat, d: nat)
    requires i < |subtasks|
    ensures d in DepsOf(subtasks)[i] <==>
      d < i && (d in subtasks[i].dependencies || (subtasks[i].dependencies == [] && !subtasks[i].parallel))
  {
    if subtasks[i].dependencies == [] && !subtasks[i].parallel {
      assert d < i ==> Requested(subtasks[i], i)[d] == d;
    } else {
      assert Requested(subtasks[i], i) == subtasks[i].dependencies;
    }
  }

  /** `_build_dependency_map`: the dict with keys 0, 1, ... is a sequence here.  The inner loop
      walks a listing of the requested indices and discards those that do not point backwards. */
  method BuildDependencyMap(subtasks: seq<PlannedSubtask>) returns (dep: Deps)
    ensures dep == DepsOf(subtasks)
    ensures Backward(dep)
    ensures forall i: nat, d: nat :: i < |subtasks| ==>
      (d in dep[i] <==>
         d < i && (d in subtasks[i].dependencies || (subtasks[i].dependencies == [] && !subtasks[i].parallel)))
  {
    dep := [];
    for i := 0 to |subtasks|
      invariant |dep| == i
      invariant forall k :: 0 <= k < i ==> dep[k] == DepsOf(subtasks)[k]
    {
      var listing := Requested(subtasks[i], i);
      var explicit := set d | d in listing;
      for k := 0 to |listing|
        invariant forall d :: d in explicit <==> d in listing && (d !in listing[..k] || 0 <= d < i)
      {
        var d := listing[k];
        if d >= i || d < 0 {
          explicit := explicit - {d};
        }
        assert listing[..k + 1] == listing[..k] + [d];
      }
      var edges := set d: nat | d < i && d in explicit;
      assert forall d: nat :: d in edges <==> d in Edges(subtasks[i], i);
      dep := dep + [edges];
    }
    forall i: nat, d: nat | i < |subtasks|
      ensures d in dep[i] <==>
        d < i && (d in subtasks[i].dependencies || (subtasks[i].dependencies == [] && !subtasks[i].parallel))
    {
      EdgeIff(subtasks, i, d);
    }
  }

  /** A plan that opts into nothing becomes a chain: each subtask waits for every earlier one. */
  lemma ImplicitPlanIsAChain(subtasks: seq<PlannedSubtask>, i: nat)
    requires i < |subtasks|
    requires subtasks[i].dependencies == [] && !subtasks[i].parallel
    ensures DepsOf(subtasks)[i] == Range(i)
  {
    forall d: nat
      ensures d in DepsOf(subtasks)[i] <==> d in Range(i)
    {
      EdgeIff(subtasks, i, d);
    }
  }

  /** A subtask all of whose listed dependencies are discarded is a root, parallel or not. */
  lemma DiscardedDependenciesMakeARoot(subtasks: seq<PlannedSubtask>, i: nat)
    requires i < |subtasks|
    requires subtasks[i].dependencies != []
    ensures DepsOf(subtasks)[i] == {} <==> forall d :: d in subtasks[i].dependencies ==> d >= i || d < 0
  {
    forall d: nat
      ensures d in DepsOf(subtasks)[i] <==> d < i && d in subtasks[i].dependencies
    {
      EdgeIff(subtasks, i, d);
    }
    if forall d :: d in subtasks[i].dependencies ==> d >= i || d < 0 {
      assert forall d: nat :: d !in DepsOf(subtasks)[i];
    } else {
      var d :| d in subtasks[i].dependencies && 0 <= d < i;
      var n: nat := d;
      assert n in DepsOf(subtasks)[i];
    }
  }
}
