/**
 * The dependencies between stacks: every stack's `dependencies` list,
 * `dependsOn` (does a stack reach another through these lists) and
 * `addDependency`, which refuses an edge that would close a cycle.
 * Stacks are known here by their handles; the graph holds every stack's list.
 */
module StackDependencies {
  import opened Wrappers
  import opened Errors

  predicate Distinct(s: seq<StackHandle>)
  {
    forall i, j :: 0 <= i < j < |s| ==> s[i] != s[j]
  }

  class StackGraph {
    /** Each stack's `dependencies`, in the order they were added. */
    var dependencies: map<StackHandle, seq<StackHandle>>
    /** The handle the next stack gets. */
    var nextHandle: StackHandle
    /** A ranking that every dependency edge lowers: the graph has no cycle. */
    ghost var rank: map<StackHandle, nat>

    ghost predicate Valid()
      reads this
    {
      && dependencies.Keys == rank.Keys
      && (forall s :: s in dependencies ==> s < nextHandle)
      && (forall s :: s in dependencies ==> Distinct(dependencies[s]))
      && (forall s, i :: s in dependencies && 0 <= i < |dependencies[s]| ==>
            dependencies[s][i] in dependencies && rank[dependencies[s][i]] < rank[s])
    }

    constructor ()
      ensures Valid() && dependencies == map[] && nextHandle == 0
    {
      dependencies := map[];
      nextHandle := 0;
      rank := map[];
    }

    /** A new stack starts with no dependencies. */
    method AddStack() returns (h: StackHandle)
      requires Valid()
      modifies this
      ensures Valid()
      ensures h == old(nextHandle) && h !in old(dependencies)
      ensures dependencies == old(dependencies)[h := []]
    {
      h := nextHandle;
      dependencies := dependencies[h := []];
      rank := rank[h := 0];
      nextHandle := nextHandle + 1;
    }

    /** `s.dependsOn(t)`: `t` is among `s`'s dependencies, or some dependency of `s` depends on `t`. */
    function DependsOn(s: StackHandle, t: StackHandle): (r: bool)
      reads this
      requires Valid() && s in dependencies
      ensures t in dependencies[s] ==> r
      ensures r ==> t in dependencies && rank[t] < rank[s]
      decreases rank[s]
    {
      t in dependencies[s] || exists i :: 0 <= i < |dependencies[s]| && DependsOn(dependencies[s][i], t)
    }

    /** A walk of at least one edge through the dependency lists. */
    ghost predicate IsWalk(p: seq<StackHandle>)
      reads this
    {
      |p| >= 2 && forall i :: 0 <= i < |p| - 1 ==> p[i] in dependencies && p[i + 1] in dependencies[p[i]]
    }

    /**
     * `addDependency(dependency)` on stack `s`, with the self-dependency
     * refused as well: a dependency that is `s` itself or depends on `s`
     * fails; one already present changes nothing; otherwise it is appended.
     */
    method AddDependency(s: StackHandle, d: StackHandle) returns (r: Outcome<Error>)
      requires Valid() && s in dependencies && d in dependencies
      modifies this
      ensures Valid()
      ensures nextHandle == old(nextHandle)
      ensures (d == s || old(DependsOn(d, s))) ==>
        r == Fail(StackHasCircularDependency(s, d)) && dependencies == old(dependencies)
      ensures !(d == s || old(DependsOn(d, s))) && d in old(dependencies[s]) ==>
        r == Pass && dependencies == old(dependencies)
      ensures !(d == s || old(DependsOn(d, s))) && d !in old(dependencies[s]) ==>
        r == Pass && dependencies == old(dependencies)[s := old(dependencies[s]) + [d]]
      ensures r.Pass? ==> DependsOn(s, d)
    {
      if d == s || DependsOn(d, s) {
        return Fail(StackHasCircularDependency(s, d));
      }
      if d in dependencies[s] {
        return Pass;
      }
      // every stack that reaches `s` (and `s` itself) moves above `d`
      ghost var shift := rank[d] + 1;
      ghost var newRank := map x | x in rank :: if x == s || DependsOn(x, s) then rank[x] + shift else rank[x];
      ReachersAreClosed(s);
      dependencies := dependencies[s := dependencies[s] + [d]];
      rank := newRank;
      r := Pass;
    }

    /** An edge into `s` or into a stack reaching `s` comes from a stack reaching `s`. */
    lemma ReachersAreClosed(s: StackHandle)
      requires Valid() && s in dependencies
      ensures forall x, i ::
        (x in dependencies && 0 <= i < |dependencies[x]| && (dependencies[x][i] == s || DependsOn(dependencies[x][i], s)))
        ==> DependsOn(x, s)
    {
    }

    /**
     * `addDependency` as written: only a dependency that depends on `s` is
     * refused, so `s.addDependency(s)` passes the guard and appends `s` to its
     * own list. Without a ranking the cycle it creates cannot be excluded.
     */
    method AddDependencyAsWritten(s: StackHandle, d: StackHandle) returns (r: Outcome<Error>)
      requires Valid() && s in dependencies && d in dependencies
      modifies this
      ensures nextHandle == old(nextHandle) && rank == old(rank)
      ensures old(DependsOn(d, s)) ==>
        r == Fail(StackHasCircularDependency(s, d)) && dependencies == old(dependencies)
      ensures !old(DependsOn(d, s)) && d in old(dependencies[s]) ==>
        r == Pass && dependencies == old(dependencies)
      ensures !old(DependsOn(d, s)) && d !in old(dependencies[s]) ==>
        r == Pass && dependencies == old(dependencies)[s := old(dependencies[s]) + [d]]
    {
      if DependsOn(d, s) {
        return Fail(StackHasCircularDependency(s, d));
      }
      if d in dependencies[s] {
        return Pass;
      }
      dependencies := dependencies[s := dependencies[s] + [d]];
      r := Pass;
    }
  }

  /** Every dependency, direct or not, sits strictly lower in the ranking. */
  lemma {:induction false} DependsOnLowersRank(g: StackGraph, s: StackHandle, t: StackHandle)
    requires g.Valid() && s in g.dependencies && g.DependsOn(s, t)
    ensures t in g.dependencies && g.rank[t] < g.rank[s]
    decreases g.rank[s]
  {
    if t !in g.dependencies[s] {
      var i :| 0 <= i < |g.dependencies[s]| && g.DependsOn(g.dependencies[s][i], t);
      DependsOnLowersRank(g, g.dependencies[s][i], t);
    }
  }

  /** A graph kept by `AddDependency` has no stack that depends on itself. */
  lemma NoStackDependsOnItself(g: StackGraph, s: StackHandle)
    requires g.Valid() && s in g.dependencies
    ensures !g.DependsOn(s, s)
  {
    if g.DependsOn(s, s) {
      DependsOnLowersRank(g, s, s);
    }
  }

  /** `dependsOn` is reachability: `s` depends on `t` exactly when a walk leads from `s` to `t`. */
  lemma {:induction false} DependsOnIsReachability(g: StackGraph, s: StackHandle, t: StackHandle)
    requires g.Valid() && s in g.dependencies
    ensures g.DependsOn(s, t) <==> exists p :: g.IsWalk(p) && p[0] == s && p[|p| - 1] == t
    decreases g.rank[s]
  {
    if g.DependsOn(s, t) {
      if t in g.dependencies[s] {
        assert g.IsWalk([s, t]);
      } else {
        var i :| 0 <= i < |g.dependencies[s]| && g.DependsOn(g.dependencies[s][i], t);
        var c := g.dependencies[s][i];
        DependsOnIsReachability(g, c, t);
        var p :| g.IsWalk(p) && p[0] == c && p[|p| - 1] == t;
        var q := [s] + p;
        assert forall j :: 0 < j < |q| ==> q[j] == p[j - 1];
        assert g.IsWalk(q);
      }
    }
    if exists p :: g.IsWalk(p) && p[0] == s && p[|p| - 1] == t {
      var p :| g.IsWalk(p) && p[0] == s && p[|p| - 1] == t;
      WalkDependsOn(g, p);
    }
  }

  lemma {:induction false} WalkDependsOn(g: StackGraph, p: seq<StackHandle>)
    requires g.Valid() && g.IsWalk(p)
    ensures p[0] in g.dependencies && g.DependsOn(p[0], p[|p| - 1])
    decreases |p|
  {
    if |p| > 2 {
      var rest := p[1..];
      assert g.IsWalk(rest) by {
        forall j | 0 <= j < |rest| - 1 ensures rest[j] in g.dependencies && rest[j + 1] in g.dependencies[rest[j]] {
          assert rest[j] == p[j + 1] && rest[j + 1] == p[j + 2];
        }
      }
      WalkDependsOn(g, rest);
      var i :| 0 <= i < |g.dependencies[p[0]]| && g.dependencies[p[0]][i] == p[1];
      assert g.DependsOn(g.dependencies[p[0]][i], p[|p| - 1]);
    }
  }

  /**
   * The guard of `addDependency` as written lets a self-dependency through:
   * in every acyclic graph `s.dependsOn(s)` is false.
   */
  lemma SelfDependencyPassesGuard(g: StackGraph, s: StackHandle)
    requires g.Valid() && s in g.dependencies
    ensures !g.DependsOn(s, s) && s !in g.dependencies[s]
  {
    NoStackDependsOnItself(g, s);
  }

  /**
   * Once a stack lists itself, no ranking orders the graph: the recursion
   * of `dependsOn` from that stack, for a stack it does not reach, calls
   * itself with the same arguments again.
   */
  lemma SelfEdgeHasNoRanking(dependencies: map<StackHandle, seq<StackHandle>>, rank: map<StackHandle, nat>, s: StackHandle)
    requires s in dependencies && s in dependencies[s]
    ensures !(dependencies.Keys == rank.Keys
              && forall x, i :: x in dependencies && 0 <= i < |dependencies[x]| ==>
                   dependencies[x][i] in dependencies && rank[dependencies[x][i]] < rank[x])
  {
    var i :| 0 <= i < |dependencies[s]| && dependencies[s][i] == s;
  }
}
