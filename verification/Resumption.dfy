/**
 * What a replay of a resumed run rebuilds: the contract and the graph of its source, with the completed cells marked.
 */
module Resumption {
  import opened Domain
  import opened Events
  import opened Companies

  // The graph that a replay holds.

  function MarkCell(g: Option<Graph>, id: Id, status: CellStatus): Option<Graph> {
    if g.Some? then Some(g.value.(cells := WithStatus(g.value.cells, id, status))) else None
  }

  function GraphStep(g: Option<Graph>, p: Payload): Option<Graph> {
    match p
    case GraphAccepted(graph) => Some(graph.(horizon := 0))
    case CellStarted(id) => MarkCell(g, id, Running)
    case CellCompleted(id, _, _) => MarkCell(g, id, Completed)
    case CellFailed(id) => MarkCell(g, id, Failed)
    case CellAdvanced(id, status) => MarkCell(g, id, status)
    case _ => g
  }

  function GraphFrom(g: Option<Graph>, log: seq<Payload>): Option<Graph>
    decreases |log|
  {
    if log == [] then g else GraphStep(GraphFrom(g, log[..|log| - 1]), log[|log| - 1])
  }

  lemma {:induction false} GraphFromAppend(g: Option<Graph>, a: seq<Payload>, b: seq<Payload>)
    ensures GraphFrom(g, a + b) == GraphFrom(GraphFrom(g, a), b)
    decreases |b|
  {
    if b == [] {
      assert a + b == a;
    } else {
      assert (a + b)[..|a + b| - 1] == a + b[..|b| - 1];
      GraphFromAppend(g, a, b[..|b| - 1]);
    }
  }

  lemma {:induction false} StepGraph<H>(folded: Folded<H>, e: Envelope<H>)
    requires Step(folded, e).Ok?
    ensures folded.Ok? && Step(folded, e).state.graph == GraphStep(folded.state.graph, e.payload)
  {
  }

  lemma {:induction false} FoldGraph<H>(events: seq<Envelope<H>>)
    requires FoldAll(NewRun(), events).Ok?
    ensures FoldAll(NewRun(), events).state.graph == GraphFrom(None, PayloadsOf(events))
    decreases |events|
  {
    if events != [] {
      var front, last := events[..|events| - 1], events[|events| - 1];
      StepGraph(FoldAll(NewRun(), front), last);
      FoldGraph(front);
      assert PayloadsOf(events)[..|PayloadsOf(events)| - 1] == PayloadsOf(front);
    }
  }

  // The graph of the source.

  /** The graph that was accepted last. */
  function AcceptedGraph(log: seq<Payload>): Option<Graph> {
    if log == [] then None
    else if log[|log| - 1].GraphAccepted? then Some(log[|log| - 1].graph)
    else AcceptedGraph(log[..|log| - 1])
  }

  predicate SameButStatus(c: Cell, d: Cell) { c == d.(status := c.status) }

  /** The same graph, but for the statuses of its cells and the horizon. */
  ghost predicate Resembles(g: Graph, h: Graph) {
    && g.edges == h.edges && g.milestones == h.milestones && |g.cells| == |h.cells|
    && forall i :: 0 <= i < |g.cells| ==> SameButStatus(g.cells[i], h.cells[i])
  }

  /** Events only ever change statuses of the graph that was accepted. */
  lemma {:induction false} SourceGraph(log: seq<Payload>)
    ensures GraphFrom(None, log).Some? <==> AcceptedGraph(log).Some?
    ensures GraphFrom(None, log).Some? ==> Resembles(GraphFrom(None, log).value, AcceptedGraph(log).value)
    decreases |log|
  {
    if log != [] {
      SourceGraph(log[..|log| - 1]);
    }
  }

  // What a resume demands of its source holds of every log that a run or a resumed run wrote.

  lemma {:induction false} AcceptedIsInLog(log: seq<Payload>)
    ensures AcceptedGraph(log).Some? ==> GraphAccepted(AcceptedGraph(log).value) in Sources(log)
  {
    if log != [] && !log[|log| - 1].GraphAccepted? {
      AcceptedIsInLog(log[..|log| - 1]);
    }
  }

  lemma {:induction false} ResemblingIds(g: Graph, h: Graph)
    requires Resembles(g, h)
    ensures IdSet(g.cells) == IdSet(h.cells) && (UniqueIds(h.cells) ==> UniqueIds(g.cells))
  {
    assert forall i :: 0 <= i < |g.cells| ==> SameButStatus(g.cells[i], h.cells[i]) && g.cells[i].id == h.cells[i].id;
    forall id ensures id in IdSet(g.cells) <==> id in IdSet(h.cells) {
      if id in IdSet(g.cells) {
        var i :| 0 <= i < |g.cells| && g.cells[i].id == id;
        assert h.cells[i] in h.cells;
      }
      if id in IdSet(h.cells) {
        var i :| 0 <= i < |h.cells| && h.cells[i].id == id;
        assert g.cells[i] in g.cells;
      }
    }
  }

  lemma {:induction false} TameLogIsFit(source: seq<Payload>, g: Graph)
    requires GraphFrom(None, source) == Some(g) && Tame(Sources(source))
    ensures UniqueIds(g.cells) && CompletedIds(g, source) <= IdSet(g.cells)
  {
    SourceGraph(source);
    AcceptedIsInLog(source);
    var accepted := AcceptedGraph(source).value;
    ResemblingIds(g, accepted);
    assert GraphAccepted(accepted) in Sources(source);
    forall p | p in source && p.CellCompleted? ensures p.completed in IdSet(g.cells) {
      assert p in Sources(source);
    }
    forall id | id in CompletedIds(g, source) ensures id in IdSet(g.cells) {
    }
  }

  /** The replay of a tame log has unique ids, and everything completed is a cell of its graph. */
  lemma {:induction false} TameSourceIsFit<H>(events: seq<Envelope<H>>)
    requires FoldAll(NewRun(), events).Ok? && FoldAll(NewRun(), events).state.graph.Some?
    requires Tame(Sources(PayloadsOf(events)))
    ensures var g := FoldAll(NewRun(), events).state.graph.value;
            UniqueIds(g.cells) && CompletedIds(g, PayloadsOf(events)) <= IdSet(g.cells)
  {
    FoldGraph(events);
    TameLogIsFit(PayloadsOf(events), FoldAll(NewRun(), events).state.graph.value);
  }

  // The graph of the resumed run.

  /** The accepted graph with the completed cells marked. */
  function Marked(g: Graph, completed: set<Id>): (r: Graph)
    ensures |r.cells| == |g.cells| && r.edges == g.edges && r.milestones == g.milestones && r.horizon == 0
    ensures forall i :: 0 <= i < |g.cells| ==>
      r.cells[i] == if g.cells[i].id in completed then g.cells[i].(status := Completed) else g.cells[i]
  {
    Again(GraphAccepted(g), completed).graph.(horizon := 0)
  }

  function MarkedOf(source: seq<Payload>, completed: set<Id>): Option<Graph> {
    var g := AcceptedGraph(source);
    if g.Some? then Some(Marked(g.value, completed)) else None
  }

  lemma {:induction false} GraphFromSnoc(g: Option<Graph>, log: seq<Payload>, p: Payload)
    ensures GraphFrom(g, log + [p]) == GraphStep(GraphFrom(g, log), p)
  {
    assert (log + [p])[..|log + [p]| - 1] == log;
  }

  lemma {:induction false} ReissuedSnoc(source: seq<Payload>, completed: set<Id>)
    requires source != []
    ensures var front, last := source[..|source| - 1], source[|source| - 1];
            Reissued(source, completed) ==
              if Reissues(last) then Reissued(front, completed) + [Again(last, completed)]
                else Reissued(front, completed)
  {
  }

  lemma {:induction false} CompletionsSnoc(source: seq<Payload>)
    requires source != []
    ensures var front, last := source[..|source| - 1], source[|source| - 1];
            CompletionsOf(source) == if last.CellCompleted? then CompletionsOf(front) + [last] else CompletionsOf(front)
  {
  }

  /** Of the events that are written again, only an accepted graph changes the graph. */
  lemma {:induction false} AgainStep(g: Option<Graph>, p: Payload, completed: set<Id>)
    requires Reissues(p)
    ensures GraphStep(g, Again(p, completed)) == if p.GraphAccepted? then Some(Marked(p.graph, completed)) else g
  {
  }

  lemma {:induction false} ReissuedGraph(source: seq<Payload>, completed: set<Id>)
    ensures GraphFrom(None, Reissued(source, completed)) == MarkedOf(source, completed)
    decreases |source|
  {
    if source != [] {
      var front, last := source[..|source| - 1], source[|source| - 1];
      ReissuedGraph(front, completed);
      ReissuedSnoc(source, completed);
      if Reissues(last) {
        GraphFromSnoc(None, Reissued(front, completed), Again(last, completed));
        AgainStep(MarkedOf(front, completed), last, completed);
      }
    }
  }

  ghost predicate HasMarks(g: Option<Graph>, completed: set<Id>) {
    g.Some? ==> forall c :: c in g.value.cells && c.id in completed ==> c.status.Completed?
  }

  /** Writing completions again changes nothing in a graph that has them marked. */
  lemma {:induction false} CompletionsKeepMarks(g: Option<Graph>, source: seq<Payload>, completed: set<Id>)
    requires HasMarks(g, completed) && forall p :: p in source && p.CellCompleted? ==> p.completed in completed
    ensures GraphFrom(g, CompletionsOf(source)) == g
    decreases |source|
  {
    if source != [] {
      var front, last := source[..|source| - 1], source[|source| - 1];
      CompletionsKeepMarks(g, front, completed);
      CompletionsSnoc(source);
      if last.CellCompleted? {
        GraphFromSnoc(g, CompletionsOf(front), last);
        assert last in source;
        MarkAgain(g, last.completed, completed);
      }
    }
  }

  lemma {:induction false} MarkAgain(g: Option<Graph>, id: Id, completed: set<Id>)
    requires HasMarks(g, completed) && id in completed
    ensures MarkCell(g, id, Completed) == g
  {
    if g.Some? {
      var was, cells := g.value.cells, WithStatus(g.value.cells, id, Completed);
      forall i | 0 <= i < |was| ensures cells[i] == was[i] {
        assert was[i] in was;
      }
      assert cells == was;
    }
  }

  lemma {:induction false} MarkedHasMarks(source: seq<Payload>, completed: set<Id>)
    ensures HasMarks(MarkedOf(source, completed), completed)
  {
    if AcceptedGraph(source).Some? {
      var g := Marked(AcceptedGraph(source).value, completed);
      forall c | c in g.cells && c.id in completed ensures c.status.Completed? {
        var i :| 0 <= i < |g.cells| && g.cells[i] == c;
      }
    }
  }

  lemma {:induction false} OpenedGraph(request: Option<Budget>, source: seq<Payload>, completed: set<Id>)
    requires forall p :: p in source && p.CellCompleted? ==> p.completed in completed
    ensures GraphFrom(None, Opened(request, source, completed)) == MarkedOf(source, completed)
  {
    var first := [RequestAccepted(request)];
    assert first[..0] == [] && GraphFrom(None, first) == None;
    GraphFromAppend(None, first, Reissued(source, completed));
    GraphFromAppend(None, first + Reissued(source, completed), CompletionsOf(source));
    ReissuedGraph(source, completed);
    MarkedHasMarks(source, completed);
    CompletionsKeepMarks(MarkedOf(source, completed), source, completed);
  }

  /**
   * A replay of what a resumed run opens with holds the contract and the graph of the source. The cells that the
   * source completed are marked; every other cell is as it was when the graph was accepted.
   */
  lemma {:induction false} ResumeRebuilds<H>(before: seq<Envelope<H>>, after: seq<Envelope<H>>)
    requires FoldAll(NewRun(), before).Ok?
    requires var state := FoldAll(NewRun(), before).state;
             state.graph.Some? && PayloadsOf(after) ==
               Opened(state.runBudget, PayloadsOf(before), CompletedIds(state.graph.value, PayloadsOf(before)))
    ensures var source := PayloadsOf(before);
            var was, now := FoldAll(NewRun(), before).state, FoldAll(NewRun(), after);
            var completed := CompletedIds(was.graph.value, source);
            && now.Ok? && now.state.status == Intake && now.state.contract == was.contract
            && AcceptedGraph(source).Some? && now.state.graph == Some(Marked(AcceptedGraph(source).value, completed))
            && Resembles(now.state.graph.value, was.graph.value)
  {
    var source, was := PayloadsOf(before), FoldAll(NewRun(), before).state;
    var completed := CompletedIds(was.graph.value, source);
    OpenedReplays(was.runBudget, source, completed, after);
    FoldContract(before);
    FoldGraph(before);
    SourceGraph(source);
    OpenedGraph(was.runBudget, source, completed);
  }

  lemma {:induction false} OpenedReplays<H>(request: Option<Budget>, source: seq<Payload>, completed: set<Id>,
                                            after: seq<Envelope<H>>)
    requires PayloadsOf(after) == Opened(request, source, completed)
    ensures var now := FoldAll(NewRun(), after);
            && now.Ok? && now.state.status == Intake && now.state.contract == ContractOf(source)
            && now.state.graph == GraphFrom(None, Opened(request, source, completed))
  {
    var written := Opened(request, source, completed);
    CopiesAreNeutral(source, completed);
    assert [RequestAccepted(request)][..0] == [];
    NeutralAppend([], written);
    assert [] + written == written;
    LogReplays(written, after);
    ResumeKeepsContract(request, source, completed);
    FoldGraph(after);
  }
}
