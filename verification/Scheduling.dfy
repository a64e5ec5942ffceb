/** Which cells may start now: every ready reader and at most one ready writer. */
module Scheduling {
  import opened Domain

  /** `tracked` says that progress is held outside the graph; otherwise the cell's own status decides. */
  predicate Eligible(c: Cell, done: set<Id>, failed: set<Id>, tracked: bool) {
    && c.id !in done && c.id !in failed
    && (tracked || c.status.Pending?)
    && forall d :: d in c.dependencies ==> d in done
  }

  predicate HasMutating(cells: seq<Cell>) {
    exists c :: c in cells && c.mode.Mutating?
  }

  /** The ready cells in graph order; a writer is passed over when an earlier writer is ready. */
  function ReadyList(cells: seq<Cell>, done: set<Id>, failed: set<Id>, tracked: bool): seq<Cell> {
    if cells == [] then []
    else
      var front := ReadyList(cells[..|cells| - 1], done, failed, tracked);
      var last := cells[|cells| - 1];
      if Eligible(last, done, failed, tracked) && !(last.mode.Mutating? && HasMutating(front)) then front + [last]
      else front
  }

  function StatusDone(cells: seq<Cell>): set<Id> {
    set c | c in cells && c.status.Completed? :: c.id
  }

  method ReadyCells(cells: seq<Cell>, completed: Option<set<Id>>, failed: Option<set<Id>>) returns (ready: seq<Cell>)
    ensures var tracked := completed.Some? || failed.Some?;
            var done := if completed.Some? then completed.value else if tracked then {} else StatusDone(cells);
            ready == ReadyList(cells, done, if failed.Some? then failed.value else {}, tracked)
  {
    var done := if completed.Some? then completed.value else {};
    var failedIds := if failed.Some? then failed.value else {};
    var tracked := completed.Some? || failed.Some?;
    if !tracked {
      done := StatusDone(cells);
    }
    ready := [];
    var hasMutating := false;
    for i := 0 to |cells|
      invariant ready == ReadyList(cells[..i], done, failedIds, tracked)
      invariant hasMutating <==> HasMutating(ready)
    {
      var cell := cells[i];
      assert cells[..i + 1][..i] == cells[..i];
      if cell.id in done || cell.id in failedIds {
        continue;
      }
      if !tracked && !cell.status.Pending? {
        continue;
      }
      if !forall d | d in cell.dependencies :: d in done {
        continue;
      }
      if cell.mode.Mutating? {
        if hasMutating {
          continue;
        }
        hasMutating := true;
      }
      ready := ready + [cell];
    }
    assert cells[..|cells|] == cells;
  }

  /** Without progress held outside the graph, statuses decide: a pending cell whose dependencies are completed. */
  lemma {:induction false} UntrackedMeans(cells: seq<Cell>, c: Cell)
    requires UniqueIds(cells) && c in cells
    ensures Eligible(c, StatusDone(cells), {}, false) <==>
            c.status.Pending? && forall d :: d in c.dependencies ==> CompletedAs(cells, d)
  {
    forall d ensures d in StatusDone(cells) <==> CompletedAs(cells, d) {
    }
    if e :| e in cells && e.status.Completed? && e.id == c.id {
      var i :| 0 <= i < |cells| && cells[i] == c;
      var j :| 0 <= j < |cells| && cells[j] == e;
      assert i == j;
    }
  }

  ghost predicate CompletedAs(cells: seq<Cell>, id: Id) { exists e :: e in cells && e.id == id && e.status.Completed? }

  lemma {:induction false} ReadyAreEligible(cells: seq<Cell>, done: set<Id>, failed: set<Id>, tracked: bool)
    ensures forall c :: c in ReadyList(cells, done, failed, tracked) ==>
      c in cells && Eligible(c, done, failed, tracked)
  {
    if cells != [] {
      ReadyAreEligible(cells[..|cells| - 1], done, failed, tracked);
    }
  }

  /** Every eligible reader is ready, and some writer is ready when one is eligible. */
  lemma {:induction false} EligibleAreServed(cells: seq<Cell>, done: set<Id>, failed: set<Id>, tracked: bool, c: Cell)
    requires c in cells && Eligible(c, done, failed, tracked)
    ensures c.mode.ReadOnly? ==> c in ReadyList(cells, done, failed, tracked)
    ensures c.mode.Mutating? ==> HasMutating(ReadyList(cells, done, failed, tracked))
  {
    var front, last := cells[..|cells| - 1], cells[|cells| - 1];
    assert cells == front + [last];
    var before := ReadyList(front, done, failed, tracked);
    if c in front {
      EligibleAreServed(front, done, failed, tracked, c);
    } else {
      assert c == last;
      assert last in before + [last];
    }
    if HasMutating(before) {
      var m :| m in before && m.mode.Mutating?;
      assert m in ReadyList(cells, done, failed, tracked);
    }
  }

  predicate WritersAtMostOne(s: seq<Cell>) {
    forall i, j :: 0 <= i < j < |s| && s[i].mode.Mutating? ==> !s[j].mode.Mutating?
  }

  lemma {:induction false} AppendKeepsOneWriter(s: seq<Cell>, c: Cell)
    requires WritersAtMostOne(s) && !(c.mode.Mutating? && HasMutating(s))
    ensures WritersAtMostOne(s + [c])
  {
    forall i, j | 0 <= i < j < |s + [c]| && (s + [c])[i].mode.Mutating? ensures !(s + [c])[j].mode.Mutating? {
      assert (s + [c])[i] == s[i] && s[i] in s;
    }
  }

  /** No two entries of the ready list are writers. */
  lemma {:induction false} OneWriterAtMost(cells: seq<Cell>, done: set<Id>, failed: set<Id>, tracked: bool)
    ensures WritersAtMostOne(ReadyList(cells, done, failed, tracked))
  {
    if cells != [] {
      var front, last := cells[..|cells| - 1], cells[|cells| - 1];
      OneWriterAtMost(front, done, failed, tracked);
      var r := ReadyList(front, done, failed, tracked);
      if !(last.mode.Mutating? && HasMutating(r)) {
        AppendKeepsOneWriter(r, last);
      }
    }
  }

  lemma {:induction false} ReadyKeepsUnique(cells: seq<Cell>, done: set<Id>, failed: set<Id>, tracked: bool)
    requires UniqueIds(cells)
    ensures UniqueIds(ReadyList(cells, done, failed, tracked))
  {
    if cells != [] {
      var front, last := cells[..|cells| - 1], cells[|cells| - 1];
      ReadyKeepsUnique(front, done, failed, tracked);
      ReadyAreEligible(front, done, failed, tracked);
      var r := ReadyList(front, done, failed, tracked);
      forall i | 0 <= i < |r| ensures r[i].id != last.id {
        assert r[i] in front;
        var k :| 0 <= k < |front| && front[k] == r[i];
        assert cells[k].id != cells[|cells| - 1].id;
      }
    }
  }

  /** The ready writer is the first eligible one. */
  lemma {:induction false} ReadyWriterIsFirst(cells: seq<Cell>, done: set<Id>, failed: set<Id>, tracked: bool, i: nat)
    requires i < |cells| && UniqueIds(cells) && cells[i].mode.Mutating?
    ensures cells[i] in ReadyList(cells, done, failed, tracked) <==>
            Eligible(cells[i], done, failed, tracked) &&
            forall j :: 0 <= j < i && cells[j].mode.Mutating? ==> !Eligible(cells[j], done, failed, tracked)
  {
    var n := |cells| - 1;
    var front := ReadyList(cells[..n], done, failed, tracked);
    ReadyAreEligible(cells[..n], done, failed, tracked);
    if i < n {
      ReadyWriterIsFirst(cells[..n], done, failed, tracked, i);
      assert cells[..n][i] == cells[i] && cells[n].id != cells[i].id;
      assert forall j :: 0 <= j < i ==> cells[..n][j] == cells[j];
    } else {
      forall k | 0 <= k < n ensures cells[..n][k] != cells[i] {
        assert cells[k].id != cells[i].id;
      }
      assert cells[i] !in front;
      if HasMutating(front) {
        var m :| m in front && m.mode.Mutating?;
        var k :| 0 <= k < n && cells[..n][k] == m;
        assert cells[k] == m;
      } else {
        forall j | 0 <= j < i && cells[j].mode.Mutating? ensures !Eligible(cells[j], done, failed, tracked) {
          assert cells[..n][j] == cells[j];
          if Eligible(cells[j], done, failed, tracked) {
            EligibleAreServed(cells[..n], done, failed, tracked, cells[j]);
          }
        }
      }
    }
  }
}
