/** Wave assignment for a proposed decomposition: topological levels, then one writer per wave. */
module Waves {
  import opened Domain
  import opened Digraph

  const MAX_PROPOSED_CELLS: nat := 8
  const MAX_WAVES: nat := 6

  /** `budgetShare` is the fraction of the contract's budget that the model asks for. */
  datatype ProposedCell = ProposedCell(
    name: string,
    mode: string,
    dependsOn: seq<string>,
    criterionIndices: seq<int>,
    budgetShare: real)

  predicate IsMutating(c: ProposedCell) { c.mode != "read_only" }

  // Levels: wave of a cell = length of the longest dependency chain that ends in it.

  ghost predicate LevelIn(waves: map<Id, nat>, dependencies: set<Id>, level: nat) {
    && dependencies <= waves.Keys
    && (forall d :: d in dependencies ==> waves[d] < level)
    && (level > 0 ==> exists d :: d in dependencies && waves[d] + 1 == level)
  }

  ghost predicate Levels(ids: seq<Id>, deps: seq<set<Id>>, waves: seq<nat>)
    requires |ids| == |deps| == |waves|
  {
    forall i :: 0 <= i < |ids| ==> LevelAt(ids, deps, waves, i)
  }

  ghost predicate LevelAt(ids: seq<Id>, deps: seq<set<Id>>, waves: seq<nat>, i: nat)
    requires |ids| == |deps| == |waves| && i < |ids|
  {
    && deps[i] <= Elems(ids)
    && (forall j :: 0 <= j < |ids| && ids[j] in deps[i] ==> waves[j] < waves[i])
    && (waves[i] > 0 ==> exists j :: 0 <= j < |ids| && ids[j] in deps[i] && waves[j] + 1 == waves[i])
  }

  ghost predicate DependsOnEarlier(ids: seq<Id>, deps: seq<set<Id>>)
    requires |ids| == |deps|
  {
    forall i :: 0 <= i < |ids| ==> deps[i] <= Elems(ids[..i])
  }

  /** Cells that can never get a level: each waits for an id outside the finished ones. */
  ghost predicate Deadlocked(ids: seq<Id>, deps: seq<set<Id>>, stuck: seq<nat>)
    requires |ids| == |deps|
  {
    && stuck != []
    && (forall i :: i in stuck ==> i < |ids|)
    && (forall i :: i in stuck ==>
          exists d :: d in deps[i] && forall j :: 0 <= j < |ids| && j !in stuck ==> ids[j] != d)
  }

  /** Which cells already have a level, and that those levels are right. */
  ghost predicate Assigned(ids: seq<Id>, deps: seq<set<Id>>, waves: map<Id, nat>, remaining: seq<nat>)
    requires |ids| == |deps|
  {
    && (forall n :: 0 <= n < |remaining| ==> remaining[n] < |ids|)
    && waves.Keys <= Elems(ids)
    && (forall i :: 0 <= i < |ids| ==> (ids[i] in waves <==> i !in remaining))
    && (forall i :: 0 <= i < |ids| && ids[i] in waves ==> LevelIn(waves, deps[i], waves[ids[i]]))
  }

  predicate Ascending(s: seq<nat>) { forall i, j :: 0 <= i < j < |s| ==> s[i] < s[j] }

  method TopologicalWaves(ids: seq<Id>, deps: seq<set<Id>>) returns (r: Option<seq<nat>>)
    requires |ids| == |deps| && Distinct(ids)
    ensures r.Some? ==> |r.value| == |ids| && Levels(ids, deps, r.value)
    ensures r.None? ==> exists stuck :: Deadlocked(ids, deps, stuck)
    ensures DependsOnEarlier(ids, deps) ==> r.Some?
  {
    var waves: map<Id, nat> := map[];
    var remaining := Range(|ids|);
    var progressed := true;
    while remaining != [] && progressed
      invariant Assigned(ids, deps, waves, remaining) && Ascending(remaining)
      invariant !progressed ==> Blocked(ids, deps, waves, remaining)
      decreases |remaining|, progressed
    {
      waves, remaining, progressed := OneRound(ids, deps, waves, remaining);
    }
    if remaining != [] {
      StuckIsDeadlocked(ids, deps, waves, remaining);
      return None;
    }
    assert forall i :: 0 <= i < |ids| ==> ids[i] in waves;
    var found := seq(|ids|, i requires 0 <= i < |ids| => waves[ids[i]]);
    AllAssigned(ids, deps, waves, found);
    return Some(found);
  }

  lemma {:induction false} StuckIsDeadlocked(ids: seq<Id>, deps: seq<set<Id>>, waves: map<Id, nat>, remaining: seq<nat>)
    requires |ids| == |deps| && Distinct(ids) && Assigned(ids, deps, waves, remaining) && Ascending(remaining)
    requires remaining != [] && Blocked(ids, deps, waves, remaining)
    ensures Deadlocked(ids, deps, remaining)
    ensures !DependsOnEarlier(ids, deps)
  {
    forall i | i in remaining
      ensures exists d :: d in deps[i] && forall j :: 0 <= j < |ids| && j !in remaining ==> ids[j] != d
    {
      var d :| d in deps[i] && d !in waves;
    }
    var first := remaining[0];
    assert first in remaining;
    var d :| d in deps[first] && d !in waves;
    assert d !in Elems(ids[..first]);
  }

  lemma {:induction false} AllAssigned(ids: seq<Id>, deps: seq<set<Id>>, waves: map<Id, nat>, found: seq<nat>)
    requires |ids| == |deps| == |found| && Assigned(ids, deps, waves, [])
    requires forall i :: 0 <= i < |ids| ==> ids[i] in waves && found[i] == waves[ids[i]]
    ensures Levels(ids, deps, found)
  {
    forall i | 0 <= i < |ids| ensures LevelAt(ids, deps, found, i) {
      assert LevelIn(waves, deps[i], waves[ids[i]]);
      if found[i] > 0 {
        var d :| d in deps[i] && waves[d] + 1 == found[i];
        assert d in Elems(ids);
        var j :| 0 <= j < |ids| && ids[j] == d;
        assert found[j] == waves[d];
      }
    }
  }

  /** Between two steps of a pass: `next` are the cells passed over, `rest` the cells still to look at. */
  ghost predicate PassState(ids: seq<Id>, deps: seq<set<Id>>, waves0: map<Id, nat>, waves: map<Id, nat>,
                            next: seq<nat>, rest: seq<nat>, progressed: bool)
    requires |ids| == |deps|
  {
    && Assigned(ids, deps, waves, next + rest)
    && Ascending(next + rest)
    && (progressed || (waves == waves0 && Blocked(ids, deps, waves0, next)))
  }

  /** One pass over the cells without a level. */
  method OneRound(ids: seq<Id>, deps: seq<set<Id>>, waves0: map<Id, nat>, remaining: seq<nat>)
    returns (waves: map<Id, nat>, next: seq<nat>, progressed: bool)
    requires |ids| == |deps| && Distinct(ids)
    requires Assigned(ids, deps, waves0, remaining) && Ascending(remaining)
    ensures Assigned(ids, deps, waves, next) && Ascending(next)
    ensures |next| <= |remaining|
    ensures progressed ==> |next| < |remaining|
    ensures !progressed ==> Blocked(ids, deps, waves, next)
  {
    waves, next, progressed := waves0, [], false;
    var rest := remaining;
    assert next + rest == remaining;
    while rest != []
      invariant |next| + |rest| <= |remaining|
      invariant progressed ==> |next| + |rest| < |remaining|
      invariant PassState(ids, deps, waves0, waves, next, rest, progressed)
    {
      waves, next, progressed := PassCell(ids, deps, waves0, waves, next, rest, progressed);
      rest := rest[1..];
    }
    assert next + rest == next;
  }

  method PassCell(ids: seq<Id>, deps: seq<set<Id>>, ghost waves0: map<Id, nat>, waves: map<Id, nat>,
                  next: seq<nat>, rest: seq<nat>, progressed: bool)
    returns (waves': map<Id, nat>, next': seq<nat>, progressed': bool)
    requires |ids| == |deps| && Distinct(ids) && rest != []
    requires PassState(ids, deps, waves0, waves, next, rest, progressed)
    ensures PassState(ids, deps, waves0, waves', next', rest[1..], progressed')
    ensures |next'| <= |next| + 1
    ensures progressed' ==> progressed || |next'| == |next|
  {
    var i := rest[0];
    ghost var left, k := next + rest, |next|;
    assert left[k] == i < |ids|;
    if forall d | d in deps[i] :: d in waves {
      var level := LevelAbove(waves, deps[i]);
      AssignOne(ids, deps, waves, left, k, level);
      DropKeepsAscending(left, k);
      waves', next', progressed' := waves[ids[i] := level], next, true;
      assert left[..k] + left[k + 1..] == next' + rest[1..];
    } else {
      waves', next', progressed' := waves, next + [i], progressed;
      assert next' + rest[1..] == left;
      if !progressed {
        BlockedSnoc(ids, deps, waves0, next, i);
      }
    }
  }

  /** Each of the cells waits for an id that has no level yet. */
  ghost predicate Blocked(ids: seq<Id>, deps: seq<set<Id>>, waves: map<Id, nat>, cells: seq<nat>)
    requires |ids| == |deps|
  {
    forall n :: 0 <= n < |cells| ==> cells[n] < |ids| && !(deps[cells[n]] <= waves.Keys)
  }

  lemma {:induction false} BlockedSnoc(ids: seq<Id>, deps: seq<set<Id>>, waves: map<Id, nat>, cells: seq<nat>, i: nat)
    requires |ids| == |deps| && Blocked(ids, deps, waves, cells)
    requires i < |ids| && !(deps[i] <= waves.Keys)
    ensures Blocked(ids, deps, waves, cells + [i])
  {
  }

  lemma {:induction false} DropKeepsAscending(s: seq<nat>, k: nat)
    requires k < |s| && Ascending(s)
    ensures Ascending(s[..k] + s[k + 1..])
  {
  }

  lemma {:induction false} AssignOne(ids: seq<Id>, deps: seq<set<Id>>, waves: map<Id, nat>, left: seq<nat>, k: nat,
                                     level: nat)
    requires |ids| == |deps| && Distinct(ids)
    requires Assigned(ids, deps, waves, left) && Ascending(left)
    requires k < |left| && left[k] < |ids| && LevelIn(waves, deps[left[k]], level)
    ensures Assigned(ids, deps, waves[ids[left[k]] := level], left[..k] + left[k + 1..])
  {
    var i, rest := left[k], left[..k] + left[k + 1..];
    var waves' := waves[ids[i] := level];
    assert i in left && ids[i] !in waves;
    RemoveAt(left, k);
    LevelInMonotone(waves, ids[i], level);
    assert ids[i] in Elems(ids);
    forall j | 0 <= j < |ids| && ids[j] in waves' ensures LevelIn(waves', deps[j], waves'[ids[j]]) {
      if j != i {
        assert LevelIn(waves, deps[j], waves[ids[j]]);
      }
    }
  }

  lemma {:induction false} RemoveAt(s: seq<nat>, k: nat)
    requires k < |s| && Ascending(s)
    ensures var rest := s[..k] + s[k + 1..];
            s[k] !in rest && forall j :: j in s <==> j == s[k] || j in rest
  {
    assert s == s[..k] + [s[k]] + s[k + 1..];
  }

  /** A new entry changes no level that was already right. */
  lemma {:induction false} LevelInMonotone(waves: map<Id, nat>, id: Id, level: nat)
    requires id !in waves
    ensures forall ds, w :: LevelIn(waves, ds, w) ==> LevelIn(waves[id := level], ds, w)
  {
    forall ds, w | LevelIn(waves, ds, w) ensures LevelIn(waves[id := level], ds, w) {
      if w > 0 {
        var d :| d in ds && waves[d] + 1 == w;
        assert waves[id := level][d] + 1 == w;
      }
    }
  }

  /** One more than the highest wave among the dependencies; zero without dependencies. */
  method LevelAbove(waves: map<Id, nat>, dependencies: set<Id>) returns (level: nat)
    requires dependencies <= waves.Keys
    ensures LevelIn(waves, dependencies, level)
  {
    level := 0;
    var rest := dependencies;
    while rest != {}
      invariant rest <= dependencies
      invariant LevelIn(waves, dependencies - rest, level)
      decreases rest
    {
      var d :| d in rest;
      ghost var before := dependencies - rest;
      rest := rest - {d};
      assert dependencies - rest == before + {d};
      if level < waves[d] + 1 {
        level := waves[d] + 1;
      }
    }
    assert dependencies - rest == dependencies;
  }

  predicate IsChain(ids: seq<Id>, deps: seq<set<Id>>, p: seq<nat>)
    requires |ids| == |deps|
  {
    && p != []
    && (forall k :: 0 <= k < |p| ==> p[k] < |ids|)
    && (forall k :: 0 <= k < |p| - 1 ==> ids[p[k]] in deps[p[k + 1]])
  }

  /** No chain that ends in a cell is longer than its level allows ... */
  lemma {:induction false} ChainsFitLevels(ids: seq<Id>, deps: seq<set<Id>>, waves: seq<nat>, p: seq<nat>)
    requires |ids| == |deps| == |waves| && Levels(ids, deps, waves) && IsChain(ids, deps, p)
    ensures |p| <= waves[p[|p| - 1]] + 1
  {
    if |p| > 1 {
      ChainsFitLevels(ids, deps, waves, p[..|p| - 1]);
      assert LevelAt(ids, deps, waves, p[|p| - 1]);
      assert ids[p[|p| - 2]] in deps[p[|p| - 1]];
    }
  }

  /** ... and some chain is exactly that long. */
  lemma {:induction false} SomeChainFillsLevel(ids: seq<Id>, deps: seq<set<Id>>, waves: seq<nat>, i: nat)
    returns (p: seq<nat>)
    requires |ids| == |deps| == |waves| && Levels(ids, deps, waves) && i < |ids|
    ensures IsChain(ids, deps, p) && p[|p| - 1] == i && |p| == waves[i] + 1
    decreases waves[i]
  {
    assert LevelAt(ids, deps, waves, i);
    if waves[i] == 0 {
      p := [i];
    } else {
      var j: nat :| j < |ids| && ids[j] in deps[i] && waves[j] + 1 == waves[i];
      var q := SomeChainFillsLevel(ids, deps, waves, j);
      p := q + [i];
    }
  }

  // Separation: a writer moves to the first wave, at or after its level, that no earlier writer took.

  ghost predicate TakenEarlier(proposed: seq<ProposedCell>, waves: seq<nat>, i: nat, w: nat)
    requires i <= |proposed| && i <= |waves|
  {
    exists j :: 0 <= j < i && IsMutating(proposed[j]) && waves[j] == w
  }

  ghost predicate FirstFree(proposed: seq<ProposedCell>, levels: seq<nat>, waves: seq<nat>, i: nat)
    requires |proposed| == |levels| && i < |waves| <= |levels|
  {
    if IsMutating(proposed[i]) then
      && levels[i] <= waves[i]
      && !TakenEarlier(proposed, waves, i, waves[i])
      && (forall w: nat :: levels[i] <= w < waves[i] ==> TakenEarlier(proposed, waves, i, w))
    else
      waves[i] == levels[i]
  }

  ghost predicate Separated(proposed: seq<ProposedCell>, levels: seq<nat>, waves: seq<nat>)
    requires |proposed| == |levels|
  {
    |waves| <= |levels| && forall i :: 0 <= i < |waves| ==> FirstFree(proposed, levels, waves, i)
  }

  /** Writer `i` finds every wave from its level up to the wave limit taken. */
  ghost predicate NoRoom(proposed: seq<ProposedCell>, levels: seq<nat>, waves: seq<nat>)
    requires |proposed| == |levels|
  {
    && |waves| < |levels| && Separated(proposed, levels, waves)
    && var i := |waves|;
       IsMutating(proposed[i]) &&
       forall w: nat :: levels[i] <= w && (w < MAX_WAVES || w == levels[i]) ==> TakenEarlier(proposed, waves, i, w)
  }

  method SeparateMutating(proposed: seq<ProposedCell>, levels: seq<nat>) returns (r: Option<seq<nat>>)
    requires |proposed| == |levels|
    ensures r.Some? ==> |r.value| == |levels| && Separated(proposed, levels, r.value)
    ensures r.None? ==> exists waves :: NoRoom(proposed, levels, waves)
  {
    var adjusted: seq<nat> := [];
    var writerIn: map<nat, nat> := map[];
    for i := 0 to |proposed|
      invariant |adjusted| == i && Separated(proposed, levels, adjusted)
      invariant forall w :: w in writerIn <==> TakenEarlier(proposed, adjusted, i, w)
    {
      var w := levels[i];
      ghost var before := adjusted;
      if IsMutating(proposed[i]) {
        while w in writerIn
          invariant levels[i] <= w
          invariant w < MAX_WAVES || w == levels[i]
          invariant forall v: nat :: levels[i] <= v < w ==> TakenEarlier(proposed, adjusted, i, v)
          decreases MAX_WAVES + levels[i] - w
        {
          w := w + 1;
          if w >= MAX_WAVES {
            assert NoRoom(proposed, levels, adjusted);
            return None;
          }
        }
        writerIn := writerIn[w := i];
      }
      adjusted := adjusted + [Max(w, levels[i])];
      assert forall j :: 0 <= j < i ==> adjusted[j] == before[j];
      TakenAgrees(proposed, before, adjusted);
      forall j | 0 <= j < |adjusted| ensures FirstFree(proposed, levels, adjusted, j) {
        if j < i {
          assert FirstFree(proposed, levels, before, j);
        }
      }
    }
    return Some(adjusted);
  }

  lemma {:induction false} TakenAgrees(proposed: seq<ProposedCell>, a: seq<nat>, b: seq<nat>)
    requires |a| < |b| <= |proposed| && a == b[..|a|]
    ensures forall i, w :: 0 <= i <= |a| ==> (TakenEarlier(proposed, a, i, w) <==> TakenEarlier(proposed, b, i, w))
    ensures forall w :: TakenEarlier(proposed, b, |a| + 1, w) <==>
              TakenEarlier(proposed, a, |a|, w) || (IsMutating(proposed[|a|]) && b[|a|] == w)
  {
    forall i, w | 0 <= i <= |a| ensures TakenEarlier(proposed, a, i, w) <==> TakenEarlier(proposed, b, i, w) {
      assert forall j :: 0 <= j < i ==> a[j] == b[j];
    }
    forall w ensures TakenEarlier(proposed, b, |a| + 1, w) <==>
                     TakenEarlier(proposed, b, |a|, w) || (IsMutating(proposed[|a|]) && b[|a|] == w) {
    }
  }

  /** Levels are determined by the dependencies: both count the longest chain. */
  lemma {:induction false} LevelsAreUnique(ids: seq<Id>, deps: seq<set<Id>>, a: seq<nat>, b: seq<nat>)
    requires |ids| == |deps| == |a| == |b| && Levels(ids, deps, a) && Levels(ids, deps, b)
    ensures a == b
  {
    forall i | 0 <= i < |a| ensures a[i] == b[i] {
      var p := SomeChainFillsLevel(ids, deps, a, i);
      var q := SomeChainFillsLevel(ids, deps, b, i);
      ChainsFitLevels(ids, deps, b, p);
      ChainsFitLevels(ids, deps, a, q);
    }
  }

  /** Separation is determined by the levels. */
  lemma {:induction false} SeparationIsUnique(proposed: seq<ProposedCell>, levels: seq<nat>, a: seq<nat>, b: seq<nat>)
    requires |proposed| == |levels| && |a| <= |b|
    requires Separated(proposed, levels, a) && Separated(proposed, levels, b)
    ensures a == b[..|a|]
  {
    if a != [] {
      var i := |a| - 1;
      SeparatedFront(proposed, levels, a, i);
      SeparationIsUnique(proposed, levels, a[..i], b);
      assert forall j :: 0 <= j < i ==> a[j] == a[..i][j] == b[j];
      assert FirstFree(proposed, levels, a, i) && FirstFree(proposed, levels, b, i);
      assert forall w :: TakenEarlier(proposed, a, i, w) <==> TakenEarlier(proposed, b, i, w);
    }
  }

  lemma {:induction false} SeparatedFront(proposed: seq<ProposedCell>, levels: seq<nat>, waves: seq<nat>, n: nat)
    requires |proposed| == |levels| && Separated(proposed, levels, waves) && n <= |waves|
    ensures Separated(proposed, levels, waves[..n])
  {
    var front := waves[..n];
    forall i | 0 <= i < n ensures FirstFree(proposed, levels, front, i) {
      assert FirstFree(proposed, levels, waves, i);
      assert forall j :: 0 <= j < i ==> front[j] == waves[j];
      assert forall w :: TakenEarlier(proposed, front, i, w) <==> TakenEarlier(proposed, waves, i, w);
    }
  }

  /** Separation gives up only where no assignment below the wave limit exists. */
  lemma {:induction false} NoRoomMeansNoWaves(proposed: seq<ProposedCell>, levels: seq<nat>, part: seq<nat>,
                                              waves: seq<nat>)
    requires |proposed| == |levels| == |waves| && NoRoom(proposed, levels, part) && Separated(proposed, levels, waves)
    ensures exists i :: 0 <= i < |waves| && waves[i] >= MAX_WAVES
  {
    var i := |part|;
    SeparationIsUnique(proposed, levels, part, waves);
    assert FirstFree(proposed, levels, waves, i);
    assert forall j :: 0 <= j < i ==> part[j] == waves[j];
    assert forall w :: TakenEarlier(proposed, part, i, w) <==> TakenEarlier(proposed, waves, i, w);
    assert waves[i] >= MAX_WAVES;
  }

  /** No two writers share a wave. */
  lemma {:induction false} WritersAreApart(proposed: seq<ProposedCell>, levels: seq<nat>, waves: seq<nat>, i: nat,
                                           j: nat)
    requires |proposed| == |levels| && Separated(proposed, levels, waves)
    requires i < j < |waves| && IsMutating(proposed[i]) && IsMutating(proposed[j])
    ensures waves[i] != waves[j]
  {
    assert FirstFree(proposed, levels, waves, j);
  }

  /** Separation alone may put a cell no later than what it depends on: the writer 1 moves past reader 2. */
  lemma {:induction false} SeparationCanBreakOrder()
    ensures
      var writer := ProposedCell("a", "mutating", [], [], 0.5);
      var second := ProposedCell("b", "mutating", [], [], 0.5);
      var reader := ProposedCell("c", "read_only", ["b"], [], 0.5);
      var ids, deps := [Id("0"), Id("1"), Id("2")], [{}, {}, {Id("1")}];
      Levels(ids, deps, [0, 0, 1]) &&
      Separated([writer, second, reader], [0, 0, 1], [0, 1, 1])
  {
    var writer := ProposedCell("a", "mutating", [], [], 0.5);
    var second := ProposedCell("b", "mutating", [], [], 0.5);
    var reader := ProposedCell("c", "read_only", ["b"], [], 0.5);
    var ids, deps := [Id("0"), Id("1"), Id("2")], [{}, {}, {Id("1")}];
    var levels, waves := [0, 0, 1], [0, 1, 1];
    assert ids[1] == Id("1") && ids[1] in deps[2];
    assert deps[0] == {} && deps[1] == {} && deps[2] <= Elems(ids);
    assert ids[0] != Id("1") && ids[2] != Id("1");
    assert LevelAt(ids, deps, levels, 0) && LevelAt(ids, deps, levels, 1) && LevelAt(ids, deps, levels, 2);
    var proposed := [writer, second, reader];
    assert IsMutating(proposed[0]) && waves[0] == 0;
    assert TakenEarlier(proposed, waves, 1, 0);
    assert FirstFree(proposed, levels, waves, 0) && FirstFree(proposed, levels, waves, 1) &&
      FirstFree(proposed, levels, waves, 2);
  }
}
