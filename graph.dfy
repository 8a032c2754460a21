/** The dependency-graph evaluation engine of kengine/performance.py (class Calculable).

    Every Calculable of the source (stations, the environment, components, shafts) is a node
    of an arena, named by its index. A node owns a `dirty` flag, an ordered list of dependents
    and an ordered list of precedents. `calculate` is a hook: firing a node appends it to the
    `trace` of the network, and the engine replays the physics over that trace. */
module Graph {

  /** Every edge list names nodes of an arena of `size` nodes. */
  ghost predicate Edges(edges: seq<seq<nat>>, size: nat)
  {
    forall i, k :: 0 <= i < |edges| && 0 <= k < |edges[i]| ==> edges[i][k] < size
  }

  /** The edge lists and the flags describe the same arena. */
  ghost predicate Fits(deps: seq<seq<nat>>, precs: seq<seq<nat>>, dirty: seq<bool>)
  {
    |deps| == |dirty| && |precs| == |dirty| && Edges(deps, |dirty|) && Edges(precs, |dirty|)
  }

  /** `rank` witnesses that the dependents relation is acyclic: every dependent edge goes
      strictly down in rank. The source detects no cycle; its recursion simply never ends on one. */
  ghost predicate Ranked(deps: seq<seq<nat>>, rank: seq<nat>)
  {
    |rank| == |deps|
    && forall i, k :: 0 <= i < |deps| && 0 <= k < |deps[i]| ==> deps[i][k] < |deps| && rank[deps[i][k]] < rank[i]
  }

  /** `p` is a walk along dependent edges. */
  ghost predicate IsPath(deps: seq<seq<nat>>, p: seq<nat>)
  {
    |p| > 0 && forall k :: 0 <= k < |p| - 1 ==> p[k] < |deps| && p[k + 1] in deps[p[k]]
  }

  /** `b` is `a` or a transitive dependent of `a`. */
  ghost predicate Reaches(deps: seq<seq<nat>>, a: nat, b: nat)
  {
    exists p :: IsPath(deps, p) && p[0] == a && p[|p| - 1] == b
  }

  /** Reachability unfolds into "the node itself or reachable from one of its dependents". */
  lemma ReachesUnfold(deps: seq<seq<nat>>, a: nat, b: nat)
    requires a < |deps|
    ensures Reaches(deps, a, b) <==> (a == b || exists k :: 0 <= k < |deps[a]| && Reaches(deps, deps[a][k], b))
  {
    if Reaches(deps, a, b) && a != b {
      var p :| IsPath(deps, p) && p[0] == a && p[|p| - 1] == b;
      assert |p| > 1;
      assert p[1] in deps[a];
      var k :| 0 <= k < |deps[a]| && deps[a][k] == p[1];
      var q := p[1..];
      assert IsPath(deps, q) by {
        forall j | 0 <= j < |q| - 1
          ensures q[j] < |deps| && q[j + 1] in deps[q[j]]
        {
          assert q[j] == p[j + 1] && q[j + 1] == p[j + 2];
        }
      }
      assert q[0] == deps[a][k] && q[|q| - 1] == b;
    }
    if a == b {
      assert IsPath(deps, [a]);
    } else if k :| 0 <= k < |deps[a]| && Reaches(deps, deps[a][k], b) {
      var p :| IsPath(deps, p) && p[0] == deps[a][k] && p[|p| - 1] == b;
      var q := [a] + p;
      assert IsPath(deps, q) by {
        forall j | 0 <= j < |q| - 1
          ensures q[j] < |deps| && q[j + 1] in deps[q[j]]
        {
          if j == 0 {
            assert q[1] == deps[a][k];
          } else {
            assert q[j] == p[j - 1] && q[j + 1] == p[j];
          }
        }
      }
      assert q[0] == a && q[|q| - 1] == b;
    }
  }

  /** Some precedent of the node is still dirty, so the node must wait for it. */
  predicate Blocked(ps: seq<nat>, dirty: seq<bool>)
  {
    exists k :: 0 <= k < |ps| && ps[k] < |dirty| && dirty[ps[k]]
  }

  /** The outcome of an `update` cascade: the new flags, the nodes whose `calculate` ran
      (in order), and whether the cascade ended without the assertion failure. */
  datatype Firing = Firing(dirty: seq<bool>, trace: seq<nat>, ok: bool)

  /** `update()` on node `n`: the assertion on `dirty`, the blocked case, and otherwise
      clear the flag, fire, and update every dependent in list order. */
  ghost function Fire(deps: seq<seq<nat>>, precs: seq<seq<nat>>, rank: seq<nat>, dirty: seq<bool>, n: nat): (f: Firing)
    requires Fits(deps, precs, dirty) && Ranked(deps, rank) && n < |dirty|
    ensures |f.dirty| == |dirty|
    decreases rank[n], 1, 0
  {
    if !dirty[n] then Firing(dirty, [], false)
    else if Blocked(precs[n], dirty) then Firing(dirty, [], true)
    else
      var r := FireAll(deps, precs, rank, dirty[n := false], deps[n], rank[n]);
      Firing(r.dirty, [n] + r.trace, r.ok)
  }

  /** `for d in ds: d.update()`, stopping at the first failed assertion. */
  ghost function FireAll(deps: seq<seq<nat>>, precs: seq<seq<nat>>, rank: seq<nat>, dirty: seq<bool>,
                         ds: seq<nat>, bound: nat): (f: Firing)
    requires Fits(deps, precs, dirty) && Ranked(deps, rank)
    requires forall k :: 0 <= k < |ds| ==> ds[k] < |dirty| && rank[ds[k]] < bound
    ensures |f.dirty| == |dirty|
    decreases bound, 0, |ds|
  {
    if ds == [] then Firing(dirty, [], true)
    else
      var r := FireAll(deps, precs, rank, dirty, ds[..|ds| - 1], bound);
      if !r.ok then r
      else
        var f := Fire(deps, precs, rank, r.dirty, ds[|ds| - 1]);
        Firing(f.dirty, r.trace + f.trace, f.ok)
  }

  predicate Distinct(s: seq<nat>)
  {
    forall j, k :: 0 <= j < k < |s| ==> s[j] != s[k]
  }

  /** A cascade only ever clears flags, and its trace lists exactly the cleared nodes,
      each once: no node is calculated twice and none is cleared without being calculated. */
  ghost predicate ClearsExactly(before: seq<bool>, f: Firing)
  {
    && |f.dirty| == |before|
    && (forall k :: 0 <= k < |f.trace| ==> f.trace[k] < |before|)
    && (forall i :: 0 <= i < |before| && f.dirty[i] ==> before[i])
    && (forall i :: 0 <= i < |before| ==> (i in f.trace <==> before[i] && !f.dirty[i]))
    && Distinct(f.trace)
  }

  lemma ClearsCompose(a: seq<bool>, r: Firing, f: Firing)
    requires ClearsExactly(a, r) && ClearsExactly(r.dirty, f)
    ensures ClearsExactly(a, Firing(f.dirty, r.trace + f.trace, f.ok))
  {
    var t := r.trace + f.trace;
    forall j, k | 0 <= j < k < |t| ensures t[j] != t[k] {
      if j < |r.trace| <= k {
        assert t[j] in r.trace && t[k] in f.trace;
        assert !r.dirty[t[j]] && r.dirty[t[k]];
      }
    }
  }

  lemma {:induction false} FireClears(deps: seq<seq<nat>>, precs: seq<seq<nat>>, rank: seq<nat>, dirty: seq<bool>, n: nat)
    requires Fits(deps, precs, dirty) && Ranked(deps, rank) && n < |dirty|
    ensures ClearsExactly(dirty, Fire(deps, precs, rank, dirty, n))
    decreases rank[n], 1, 0
  {
    if dirty[n] && !Blocked(precs[n], dirty) {
      var d1 := dirty[n := false];
      FireAllClears(deps, precs, rank, d1, deps[n], rank[n]);
      var r := FireAll(deps, precs, rank, d1, deps[n], rank[n]);
      var t := [n] + r.trace;
      assert n !in r.trace;
      forall i | 0 <= i < |dirty| ensures i in t <==> dirty[i] && !r.dirty[i] {
        if i == n { assert t[0] == n; }
      }
      forall j, k | 0 <= j < k < |t| ensures t[j] != t[k] {
        if j > 0 { assert t[j] == r.trace[j - 1] && t[k] == r.trace[k - 1]; }
        else { assert t[k] in r.trace; }
      }
    }
  }

  lemma {:induction false} FireAllClears(deps: seq<seq<nat>>, precs: seq<seq<nat>>, rank: seq<nat>, dirty: seq<bool>,
                                         ds: seq<nat>, bound: nat)
    requires Fits(deps, precs, dirty) && Ranked(deps, rank)
    requires forall k :: 0 <= k < |ds| ==> ds[k] < |dirty| && rank[ds[k]] < bound
    ensures ClearsExactly(dirty, FireAll(deps, precs, rank, dirty, ds, bound))
    decreases bound, 0, |ds|
  {
    if ds != [] {
      FireAllClears(deps, precs, rank, dirty, ds[..|ds| - 1], bound);
      var r := FireAll(deps, precs, rank, dirty, ds[..|ds| - 1], bound);
      if r.ok {
        FireClears(deps, precs, rank, r.dirty, ds[|ds| - 1]);
        ClearsCompose(dirty, r, Fire(deps, precs, rank, r.dirty, ds[|ds| - 1]));
      }
    }
  }

  /** Every node of a trace fired only when each of its precedents was clean: clean
      before the cascade began or fired earlier in the same cascade. */
  ghost predicate RespectsPrecedents(precs: seq<seq<nat>>, before: seq<bool>, trace: seq<nat>)
  {
    forall k, j :: 0 <= k < |trace| && trace[k] < |precs| && 0 <= j < |precs[trace[k]]| && precs[trace[k]][j] < |before| ==>
      !before[precs[trace[k]][j]] || precs[trace[k]][j] in trace[..k]
  }

  lemma {:induction false} FireRespectsPrecedents(deps: seq<seq<nat>>, precs: seq<seq<nat>>, rank: seq<nat>, dirty: seq<bool>, n: nat)
    requires Fits(deps, precs, dirty) && Ranked(deps, rank) && n < |dirty|
    ensures RespectsPrecedents(precs, dirty, Fire(deps, precs, rank, dirty, n).trace)
    decreases rank[n], 1, 0
  {
    if dirty[n] && !Blocked(precs[n], dirty) {
      var d1 := dirty[n := false];
      FireAllRespectsPrecedents(deps, precs, rank, d1, deps[n], rank[n]);
      var r := FireAll(deps, precs, rank, d1, deps[n], rank[n]);
      var t := [n] + r.trace;
      forall k, j | 0 <= k < |t| && t[k] < |precs| && 0 <= j < |precs[t[k]]| && precs[t[k]][j] < |dirty|
        ensures !dirty[precs[t[k]][j]] || precs[t[k]][j] in t[..k]
      {
        var p := precs[t[k]][j];
        if k > 0 {
          assert t[k] == r.trace[k - 1];
          assert t[..k] == [n] + r.trace[..k - 1];
          if p == n { assert t[0] == n; }
        }
      }
    }
  }

  lemma {:induction false} FireAllRespectsPrecedents(deps: seq<seq<nat>>, precs: seq<seq<nat>>, rank: seq<nat>, dirty: seq<bool>,
                                                     ds: seq<nat>, bound: nat)
    requires Fits(deps, precs, dirty) && Ranked(deps, rank)
    requires forall k :: 0 <= k < |ds| ==> ds[k] < |dirty| && rank[ds[k]] < bound
    ensures RespectsPrecedents(precs, dirty, FireAll(deps, precs, rank, dirty, ds, bound).trace)
    decreases bound, 0, |ds|
  {
    if ds != [] {
      FireAllRespectsPrecedents(deps, precs, rank, dirty, ds[..|ds| - 1], bound);
      var r := FireAll(deps, precs, rank, dirty, ds[..|ds| - 1], bound);
      if r.ok {
        var last := ds[|ds| - 1];
        FireAllClears(deps, precs, rank, dirty, ds[..|ds| - 1], bound);
        FireRespectsPrecedents(deps, precs, rank, r.dirty, last);
        var f := Fire(deps, precs, rank, r.dirty, last);
        var t := r.trace + f.trace;
        forall k, j | 0 <= k < |t| && t[k] < |precs| && 0 <= j < |precs[t[k]]| && precs[t[k]][j] < |dirty|
          ensures !dirty[precs[t[k]][j]] || precs[t[k]][j] in t[..k]
        {
          var p := precs[t[k]][j];
          if k < |r.trace| {
            assert t[..k] == r.trace[..k];
          } else {
            var m := k - |r.trace|;
            assert t[k] == f.trace[m];
            assert t[..k] == r.trace + f.trace[..m];
            if dirty[p] && !r.dirty[p] {
              assert p in r.trace;
            }
          }
        }
      }
    }
  }

  /** A cascade started at `n` calculates only `n` and its transitive dependents. */
  lemma {:induction false} FireReachesOnly(deps: seq<seq<nat>>, precs: seq<seq<nat>>, rank: seq<nat>, dirty: seq<bool>, n: nat)
    requires Fits(deps, precs, dirty) && Ranked(deps, rank) && n < |dirty|
    ensures forall i :: i in Fire(deps, precs, rank, dirty, n).trace ==> Reaches(deps, n, i)
    decreases rank[n], 1, 0
  {
    if dirty[n] && !Blocked(precs[n], dirty) {
      var d1 := dirty[n := false];
      FireAllReachesOnly(deps, precs, rank, d1, deps[n], rank[n]);
      var r := FireAll(deps, precs, rank, d1, deps[n], rank[n]);
      forall i | i in [n] + r.trace ensures Reaches(deps, n, i) {
        ReachesUnfold(deps, n, i);
      }
    }
  }

  lemma {:induction false} FireAllReachesOnly(deps: seq<seq<nat>>, precs: seq<seq<nat>>, rank: seq<nat>, dirty: seq<bool>,
                                              ds: seq<nat>, bound: nat)
    requires Fits(deps, precs, dirty) && Ranked(deps, rank)
    requires forall k :: 0 <= k < |ds| ==> ds[k] < |dirty| && rank[ds[k]] < bound
    ensures forall i :: i in FireAll(deps, precs, rank, dirty, ds, bound).trace ==>
              exists k :: 0 <= k < |ds| && Reaches(deps, ds[k], i)
    decreases bound, 0, |ds|
  {
    if ds != [] {
      var front := ds[..|ds| - 1];
      FireAllReachesOnly(deps, precs, rank, dirty, front, bound);
      var r := FireAll(deps, precs, rank, dirty, front, bound);
      if r.ok {
        FireReachesOnly(deps, precs, rank, r.dirty, ds[|ds| - 1]);
        forall i | i in r.trace ensures exists k :: 0 <= k < |ds| && Reaches(deps, ds[k], i) {
          var k :| 0 <= k < |front| && Reaches(deps, front[k], i);
          assert front[k] == ds[k];
        }
      }
    }
  }

  /** Once the loop over dependents has failed, the later dependents are never updated. */
  lemma {:induction false} FireAllStopsAtFailure(deps: seq<seq<nat>>, precs: seq<seq<nat>>, rank: seq<nat>, dirty: seq<bool>,
                                                 ds: seq<nat>, bound: nat, i: nat)
    requires Fits(deps, precs, dirty) && Ranked(deps, rank)
    requires forall k :: 0 <= k < |ds| ==> ds[k] < |dirty| && rank[ds[k]] < bound
    requires i <= |ds| && !FireAll(deps, precs, rank, dirty, ds[..i], bound).ok
    ensures FireAll(deps, precs, rank, dirty, ds, bound) == FireAll(deps, precs, rank, dirty, ds[..i], bound)
    decreases |ds| - i
  {
    if i < |ds| {
      assert ds[..i + 1][..i] == ds[..i];
      FireAllStopsAtFailure(deps, precs, rank, dirty, ds, bound, i + 1);
    } else {
      assert ds[..i] == ds;
    }
  }

  /** The shortcut wiring: A = 0 has dependents [B, C] = [1, 2], B has the dependent C,
      so C has the precedents [A, B]. */
  const ShortcutDeps: seq<seq<nat>> := [[1, 2], [2], []]
  const ShortcutPrecs: seq<seq<nat>> := [[], [0], [0, 1]]
  const ShortcutRank: seq<nat> := [2, 1, 0]

  lemma ShortcutWellFormed(dirty: seq<bool>)
    requires |dirty| == 3
    ensures Fits(ShortcutDeps, ShortcutPrecs, dirty) && Ranked(ShortcutDeps, ShortcutRank)
  {
    forall i, k | 0 <= i < 3 && 0 <= k < |ShortcutDeps[i]|
      ensures ShortcutDeps[i][k] < 3 && ShortcutRank[ShortcutDeps[i][k]] < ShortcutRank[i]
    {
      if i == 0 { assert k == 0 || k == 1; } else { assert i == 1 && k == 0; }
    }
    forall i, k | 0 <= i < 3 && 0 <= k < |ShortcutPrecs[i]| ensures ShortcutPrecs[i][k] < 3 {
      if i == 1 { assert k == 0; } else { assert i == 2; }
    }
  }

  lemma ShortcutFiresC()
    ensures Fits(ShortcutDeps, ShortcutPrecs, [false, false, true]) && Ranked(ShortcutDeps, ShortcutRank)
    ensures FireAll(ShortcutDeps, ShortcutPrecs, ShortcutRank, [false, false, true], [2], 1) == Firing([false, false, false], [2], true)
  {
    ShortcutWellFormed([false, false, true]);
    ShortcutWellFormed([false, false, false]);
    assert !Blocked(ShortcutPrecs[2], [false, false, true]);
    assert [false, false, true][2 := false] == [false, false, false];
    assert [2][..0] == [];
  }

  lemma ShortcutFiresB()
    ensures Fits(ShortcutDeps, ShortcutPrecs, [false, true, true]) && Ranked(ShortcutDeps, ShortcutRank)
    ensures FireAll(ShortcutDeps, ShortcutPrecs, ShortcutRank, [false, true, true], [1], 2) == Firing([false, false, false], [1, 2], true)
  {
    ShortcutWellFormed([false, true, true]);
    ShortcutWellFormed([false, false, true]);
    ShortcutFiresC();
    assert !Blocked(ShortcutPrecs[1], [false, true, true]);
    assert [false, true, true][1 := false] == [false, false, true];
    assert [1][..0] == [];
  }

  /** The wiring A -> [B, C] with the shortcut B -> C, B listed first: C fires through B,
      then A updates the already clean C and the assertion on `dirty` fails. */
  lemma {:induction false} ShortcutWiringFails()
    ensures Fits(ShortcutDeps, ShortcutPrecs, [true, true, true]) && Ranked(ShortcutDeps, ShortcutRank)
    ensures var f := Fire(ShortcutDeps, ShortcutPrecs, ShortcutRank, [true, true, true], 0);
            !f.ok && f.trace == [0, 1, 2] && f.dirty == [false, false, false]
  {
    ShortcutWellFormed([true, true, true]);
    ShortcutWellFormed([false, true, true]);
    ShortcutWellFormed([false, false, false]);
    ShortcutFiresB();
    var ds: seq<nat> := [1, 2];
    assert ds[..|ds| - 1] == [1];
    assert Fire(ShortcutDeps, ShortcutPrecs, ShortcutRank, [false, false, false], 2).ok == false;
    assert FireAll(ShortcutDeps, ShortcutPrecs, ShortcutRank, [false, true, true], ds, 2) == Firing([false, false, false], [1, 2], false);
    assert !Blocked(ShortcutPrecs[0], [true, true, true]);
    assert [true, true, true][0 := false] == [false, true, true];
  }

  /** The arena of Calculables. */
  class Network {
    var dirty: seq<bool>
    var dependents: seq<seq<nat>>
    var precedents: seq<seq<nat>>
    /** The nodes whose `calculate` hook has run, oldest first. */
    var trace: seq<nat>

    ghost predicate Valid()
      reads this
    {
      Fits(dependents, precedents, dirty)
    }

    constructor ()
      ensures Valid() && dirty == [] && dependents == [] && precedents == [] && trace == []
    {
      dirty, dependents, precedents, trace := [], [], [], [];
    }

    /** `Calculable.__init__`: a new node starts dirty with no edges. */
    method AddNode() returns (id: nat)
      requires Valid()
      modifies this
      ensures Valid() && id == |old(dirty)|
      ensures dirty == old(dirty) + [true]
      ensures dependents == old(dependents) + [[]] && precedents == old(precedents) + [[]]
      ensures trace == old(trace)
    {
      id := |dirty|;
      dirty := dirty + [true];
      dependents := dependents + [[]];
      precedents := precedents + [[]];
    }

    /** `x.add_dependent(y)`, also `x.dependents.append(y)`. */
    method AddDependent(x: nat, y: nat)
      requires Valid() && x < |dirty| && y < |dirty|
      modifies this
      ensures Valid()
      ensures dependents == old(dependents)[x := old(dependents)[x] + [y]]
      ensures precedents == old(precedents) && dirty == old(dirty) && trace == old(trace)
    {
      dependents := dependents[x := dependents[x] + [y]];
    }

    /** `x.add_precedent(y)`, also `x.precedents.append(y)`. */
    method AddPrecedent(x: nat, y: nat)
      requires Valid() && x < |dirty| && y < |dirty|
      modifies this
      ensures Valid()
      ensures precedents == old(precedents)[x := old(precedents)[x] + [y]]
      ensures dependents == old(dependents) && dirty == old(dirty) && trace == old(trace)
    {
      precedents := precedents[x := precedents[x] + [y]];
    }

    /** The symmetric pair of appends every wiring method except the splitter's exits makes:
        `down` becomes a dependent of `up` and `up` a precedent of `down`. */
    method Link(up: nat, down: nat)
      requires Valid() && up < |dirty| && down < |dirty|
      modifies this
      ensures Valid()
      ensures dependents == old(dependents)[up := old(dependents)[up] + [down]]
      ensures precedents == old(precedents)[down := old(precedents)[down] + [up]]
      ensures dirty == old(dirty) && trace == old(trace)
    {
      AddDependent(up, down);
      AddPrecedent(down, up);
    }

    /** `make_dirty`: mark the node and, without stopping at nodes already dirty, every
        transitive dependent; no other flag changes. */
    method MakeDirty(n: nat, ghost rank: seq<nat>)
      requires Valid() && n < |dirty| && Ranked(dependents, rank)
      modifies this
      ensures Valid() && |dirty| == |old(dirty)|
      ensures dependents == old(dependents) && precedents == old(precedents) && trace == old(trace)
      ensures forall i :: 0 <= i < |dirty| ==> dirty[i] == (old(dirty)[i] || Reaches(dependents, n, i))
      decreases rank[n]
    {
      dirty := dirty[n := true];
      var ds := dependents[n];
      var j := 0;
      while j < |ds|
        invariant 0 <= j <= |ds|
        invariant Valid() && |dirty| == |old(dirty)|
        invariant dependents == old(dependents) && precedents == old(precedents) && trace == old(trace)
        invariant forall i :: 0 <= i < |dirty| ==>
          dirty[i] == (old(dirty)[i] || i == n || exists k :: 0 <= k < j && Reaches(dependents, ds[k], i))
      {
        MakeDirty(ds[j], rank);
        j := j + 1;
      }
      forall i | 0 <= i < |dirty|
        ensures dirty[i] == (old(dirty)[i] || Reaches(dependents, n, i))
      {
        ReachesUnfold(dependents, n, i);
      }
    }

    /** `update`: `ok` is false where the source's assertion on `dirty` fails. */
    method Update(n: nat, ghost rank: seq<nat>) returns (ok: bool)
      requires Valid() && n < |dirty| && Ranked(dependents, rank)
      modifies this
      ensures Valid() && dependents == old(dependents) && precedents == old(precedents)
      ensures var f := Fire(dependents, precedents, rank, old(dirty), n);
              dirty == f.dirty && trace == old(trace) + f.trace && ok == f.ok
      ensures !old(dirty)[n] ==> !ok && dirty == old(dirty) && trace == old(trace)
      decreases rank[n], 1
    {
      if !dirty[n] {
        return false;
      }
      if Blocked(precedents[n], dirty) {
        return true;
      }
      dirty := dirty[n := false];
      trace := trace + [n];
      ghost var d1, t1 := dirty, trace;
      var ds := dependents[n];
      var i := 0;
      ok := true;
      while i < |ds| && ok
        invariant 0 <= i <= |ds|
        invariant Valid() && dependents == old(dependents) && precedents == old(precedents)
        invariant var r := FireAll(dependents, precedents, rank, d1, ds[..i], rank[n]);
                  dirty == r.dirty && trace == t1 + r.trace && ok == r.ok
      {
        ok := Update(ds[i], rank);
        assert ds[..i + 1][..i] == ds[..i];
        i := i + 1;
      }
      if !ok {
        FireAllStopsAtFailure(dependents, precedents, rank, d1, ds, rank[n], i);
      } else {
        assert ds[..i] == ds;
      }
    }
  }
}
