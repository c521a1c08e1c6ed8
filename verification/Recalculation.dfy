/**
  Recalculating a sheet after some cells changed: which formulas are affected,
  and the walk that evaluates each of them after what it depends on, marking the
  cells of any cycle it runs into.
*/
module Recalculation {
  import opened FormulaSyntax
  import opened Evaluator
  import opened Dependencies

  const CIRCULAR := Failure("#CIRC!")

  // The formula cells, what each depends on in the order it is visited, and what
  // each evaluates to on a sheet.
  datatype Graph = Graph(deps: map<Cell, seq<Cell>>, compute: (Cell, Sheet) -> Value)
  {
    function DepsOf(c: Cell): seq<Cell> { if c in deps then deps[c] else [] }
  }

  ghost predicate AllData(s: Sheet) { forall c :: c in s ==> Data(s[c]) }

  ghost predicate SameOn(cells: seq<Cell>, s: Sheet, t: Sheet) { forall d :: d in cells ==> ReadCell(s, d) == ReadCell(t, d) }

  // A formula gives data, and the same on sheets that agree on its dependencies.
  ghost predicate Local(g: Graph) {
    && (forall c, s :: AllData(s) ==> Data(g.compute(c, s)))
    && (forall c, s, t :: AllData(s) && AllData(t) && SameOn(g.DepsOf(c), s, t) ==> g.compute(c, s) == g.compute(c, t))
  }

  function Elements(cells: seq<Cell>): set<Cell> { set c | c in cells }

  // -------- what a change affects --------

  function Dependents(g: Graph, d: Cell): (r: set<Cell>)
    ensures forall c :: c in r <==> c in g.deps && d in g.deps[c]
  {
    set c | c in g.deps && d in g.deps[c]
  }

  // Every formula that was changed, or that depends on a changed cell or on a
  // formula of the set, is in the set.
  ghost predicate Closed(g: Graph, changed: set<Cell>, cells: set<Cell>) {
    forall c :: c in g.deps && (c in changed || exists d :: d in g.deps[c] && (d in changed || d in cells)) ==> c in cells
  }

  // The affected formulas: the least such set.
  ghost predicate IsAffected(g: Graph, changed: set<Cell>, affected: set<Cell>) {
    affected <= g.deps.Keys && Closed(g, changed, affected) && forall cells :: Closed(g, changed, cells) ==> affected <= cells
  }

  // What the search has found: `rest` waits in the queue.
  ghost predicate Searching(g: Graph, changed: set<Cell>, affected: set<Cell>, queued: set<Cell>, rest: set<Cell>) {
    && affected <= g.deps.Keys && changed <= queued && rest <= queued && queued <= changed + affected && affected <= queued
    && (forall c :: c in changed && c in g.deps ==> c in affected)
    && (forall c :: c in queued && c !in rest ==> Dependents(g, c) <= affected)
    && (forall cells :: Closed(g, changed, cells) ==> affected <= cells)
  }

  method FindAffected(g: Graph, changed: seq<Cell>) returns (affected: set<Cell>)
    ensures IsAffected(g, Elements(changed), affected)
  {
    hide Searching, IsAffected;
    affected := {};
    var queue: seq<Cell>, queued: set<Cell> := [], {};
    for i := 0 to |changed|
      invariant forall c :: c in queue <==> c in queued
      invariant forall c :: c in queued <==> c in changed[..i]
      invariant forall c :: c in affected <==> c in changed[..i] && c in g.deps
    {
      var address := changed[i];
      if address !in queued { queue, queued := queue + [address], queued + {address}; }
      if address in g.deps { affected := affected + {address}; }
    }
    assert changed[..|changed|] == changed && queued == Elements(changed) == Elements(queue);
    ChangedAreAffected(g, Elements(changed), affected);
    while queue != []
      invariant Searching(g, Elements(changed), affected, queued, Elements(queue))
      decreases Elements(changed) + g.deps.Keys - queued, |queue|
    {
      ghost var known, left := queued, queue[1..];
      affected, queue, queued := AddDependents(g, Elements(changed), affected, queue, queued);
    }
    assert Elements(queue) == {};
    FoundAll(g, Elements(changed), affected, queued);
  }

  // One turn of the search: the formulas that depend on the first cell waiting.
  method AddDependents(g: Graph, ghost changed: set<Cell>, affected: set<Cell>, queue: seq<Cell>, queued: set<Cell>)
    returns (affected': set<Cell>, queue': seq<Cell>, queued': set<Cell>)
    requires queue != [] && Searching(g, changed, affected, queued, Elements(queue))
    ensures Searching(g, changed, affected', queued', Elements(queue'))
    ensures queued <= queued' <= changed + g.deps.Keys && (queued == queued' ==> queue' == queue[1..])
  {
    hide Closed;
    var current := queue[0];
    assert queue == [current] + queue[1..];
    affected', queue', queued' := affected, queue[1..], queued;
    var rest := Dependents(g, current);
    assert Elements(queue') + {current} == Elements([current] + queue');
    while rest != {}
      invariant rest <= Dependents(g, current) && Dependents(g, current) <= affected' + rest
      invariant Searching(g, changed, affected', queued', Elements(queue') + {current})
      invariant queued <= queued' && (queued == queued' ==> queue' == queue[1..])
      decreases rest
    {
      var dependent :| dependent in rest;
      rest := rest - {dependent};
      DependentIsAffected(g, changed, affected', queued', Elements(queue'), current, dependent);
      affected' := affected' + {dependent};
      if dependent !in queued' {
        assert Elements(queue' + [dependent]) == Elements(queue') + {dependent};
        queue', queued' := queue' + [dependent], queued' + {dependent};
      }
    }
    CurrentIsDone(g, changed, affected', queued', Elements(queue'), current);
  }

  lemma ChangedAreAffected(g: Graph, changed: set<Cell>, affected: set<Cell>)
    requires forall c :: c in affected <==> c in changed && c in g.deps
    ensures Searching(g, changed, affected, changed, changed)
  {
  }

  lemma DependentIsAffected(g: Graph, changed: set<Cell>, affected: set<Cell>, queued: set<Cell>, queue: set<Cell>, current: Cell, dependent: Cell)
    requires Searching(g, changed, affected, queued, queue + {current}) && dependent in Dependents(g, current)
    ensures Searching(g, changed, affected + {dependent}, queued + {dependent}, queue + (if dependent in queued then {} else {dependent}) + {current})
  {
    forall cells | Closed(g, changed, cells) ensures dependent in cells {
      assert current in changed || current in cells;
    }
  }

  lemma CurrentIsDone(g: Graph, changed: set<Cell>, affected: set<Cell>, queued: set<Cell>, queue: set<Cell>, current: Cell)
    requires Searching(g, changed, affected, queued, queue + {current}) && Dependents(g, current) <= affected
    ensures Searching(g, changed, affected, queued, queue)
  {
    hide Closed;
  }

  lemma FoundAll(g: Graph, changed: set<Cell>, affected: set<Cell>, queued: set<Cell>)
    requires Searching(g, changed, affected, queued, {})
    ensures IsAffected(g, changed, affected)
  {
    forall c | c in g.deps && (c in changed || exists d :: d in g.deps[c] && (d in changed || d in affected)) ensures c in affected {
      if c !in changed {
        var d :| d in g.deps[c] && (d in changed || d in affected);
        assert d in queued && c in Dependents(g, d);
      }
    }
  }

  // -------- the walk --------

  // Where the walk stands: the values so far, the formulas being worked on, those
  // finished in the order they were, and those marked circular.
  datatype Walk = Walk(values: Sheet, stack: seq<Cell>, finished: seq<Cell>, cycles: set<Cell>)
  {
    function Seen(): set<Cell> { Elements(stack) + Elements(finished) }
  }

  function Marked(values: Sheet, cells: set<Cell>): Sheet { values + map c | c in cells :: CIRCULAR }

  // The part of the stack from a cell on.
  function From(stack: seq<Cell>, a: Cell): (r: seq<Cell>)
    requires a in stack
    ensures r != [] && r[0] == a && |r| <= |stack| && r == stack[|stack| - |r|..]
  {
    if stack[0] == a then stack else From(stack[1..], a)
  }

  lemma FromStep(stack: seq<Cell>, a: Cell, k: nat)
    requires k < |stack| && a in stack[k..]
    ensures if stack[k] == a then From(stack[k..], a) == stack[k..]
            else k + 1 < |stack| && a in stack[k + 1..] && From(stack[k..], a) == From(stack[k + 1..], a)
  {
    assert stack[k..] == [stack[k]] + stack[k + 1..] && stack[k..][1..] == stack[k + 1..];
  }

  function Calc(g: Graph, affected: set<Cell>, w: Walk, a: Cell): (r: Walk)
    requires a in affected
    ensures r.stack == w.stack && w.finished <= r.finished && w.cycles <= r.cycles && w.Seen() <= r.Seen()
    decreases affected - w.Seen(), 0
  {
    if a in w.finished then w
    else if a in w.stack then
      var members := Elements(From(w.stack, a));
      w.(cycles := w.cycles + members, values := Marked(w.values, members))
    else
      assert a in affected - w.Seen();
      var pushed := w.(stack := w.stack + [a]);
      assert pushed.Seen() == w.Seen() + {a};
      var inner := CalcAll(g, affected, pushed, g.DepsOf(a));
      Walk(if a in inner.cycles then inner.values else inner.values[a := g.compute(a, inner.values)],
           w.stack, inner.finished + [a], inner.cycles)
  }

  function CalcAll(g: Graph, affected: set<Cell>, w: Walk, cells: seq<Cell>): (r: Walk)
    ensures r.stack == w.stack && w.finished <= r.finished && w.cycles <= r.cycles && w.Seen() <= r.Seen()
    decreases affected - w.Seen(), 1 + |cells|
  {
    if cells == [] then w
    else CalcAll(g, affected, if cells[0] in affected then Calc(g, affected, w, cells[0]) else w, cells[1..])
  }

  lemma CalcSeen(g: Graph, affected: set<Cell>, w: Walk, a: Cell)
    requires a in affected
    ensures a in w.finished ==> Calc(g, affected, w, a) == w
    ensures a !in w.finished && a in w.stack ==>
              var members := Elements(From(w.stack, a));
              Calc(g, affected, w, a) == w.(cycles := w.cycles + members, values := Marked(w.values, members))
  {
    hide CalcAll, From, Marked;
  }

  lemma CalcUnseen(g: Graph, affected: set<Cell>, w: Walk, a: Cell)
    requires a in affected && a !in w.finished && a !in w.stack
    ensures var pushed := w.(stack := w.stack + [a]);
            var inner := CalcAll(g, affected, pushed, g.DepsOf(a));
            && affected - pushed.Seen() < affected - w.Seen()
            && Calc(g, affected, w, a)
               == Walk(if a in inner.cycles then inner.values else inner.values[a := g.compute(a, inner.values)],
                       w.stack, inner.finished + [a], inner.cycles)
  {
    hide CalcAll;
    var pushed := w.(stack := w.stack + [a]);
    assert pushed.Seen() == w.Seen() + {a} && a in affected - w.Seen();
  }

  lemma CalcAllStep(g: Graph, affected: set<Cell>, w: Walk, cells: seq<Cell>, i: nat)
    requires i < |cells|
    ensures CalcAll(g, affected, w, cells[i..])
         == CalcAll(g, affected, if cells[i] in affected then Calc(g, affected, w, cells[i]) else w, cells[i + 1..])
  {
    hide Calc;
    assert cells[i..][0] == cells[i] && cells[i..][1..] == cells[i + 1..];
  }

  lemma CalcAllNone(g: Graph, affected: set<Cell>, w: Walk, cells: seq<Cell>)
    ensures CalcAll(g, affected, w, cells[|cells|..]) == w
  {
  }

  lemma MarkedNone(values: Sheet)
    ensures Marked(values, {}) == values && Elements([]) == {}
  {
  }

  lemma MarkedOneMore(values: Sheet, cells: set<Cell>, c: Cell)
    ensures Marked(values, cells + {c}) == Marked(values, cells)[c := CIRCULAR]
  {
  }

  // -------- what the walk keeps --------

  predicate Distinct(cells: seq<Cell>) { forall i, j :: 0 <= i < j < |cells| ==> cells[i] != cells[j] }

  // Each cell depends on the next.
  predicate Chain(g: Graph, cells: seq<Cell>) { forall i :: 0 <= i < |cells| - 1 ==> cells[i + 1] in g.DepsOf(cells[i]) }

  // A chain of affected formulas whose last depends on the first again.
  predicate Cycle(g: Graph, affected: set<Cell>, path: seq<Cell>) {
    path != [] && Elements(path) <= affected && Chain(g, path) && path[0] in g.DepsOf(path[|path| - 1])
  }

  ghost predicate OnCycle(g: Graph, affected: set<Cell>, c: Cell) { exists path :: Cycle(g, affected, path) && c in path }

  // On a cycle that lies in the set as a whole.
  ghost predicate OnMarked(g: Graph, affected: set<Cell>, marked: set<Cell>, c: Cell) {
    exists path :: Cycle(g, affected, path) && c in path && Elements(path) <= marked
  }

  ghost predicate Shaped(g: Graph, affected: set<Cell>, w: Walk) {
    && Distinct(w.stack) && Distinct(w.finished) && Elements(w.stack) !! Elements(w.finished)
    && w.Seen() <= affected && w.cycles <= w.Seen() && Chain(g, w.stack)
  }

  // A finished formula that is not marked has its affected dependencies finished
  // before it and holds its value on the values there are.
  ghost predicate Settled(g: Graph, affected: set<Cell>, w: Walk, i: nat)
    requires i < |w.finished|
  {
    var c := w.finished[i];
    && (forall d :: d in g.DepsOf(c) && d in affected ==> d in w.finished[..i])
    && ReadCell(w.values, c) == g.compute(c, w.values)
  }

  ghost predicate AllSettled(g: Graph, affected: set<Cell>, w: Walk) {
    forall i :: 0 <= i < |w.finished| && w.finished[i] !in w.cycles ==> Settled(g, affected, w, i)
  }

  ghost predicate AllMarked(g: Graph, affected: set<Cell>, w: Walk) {
    forall c :: c in w.cycles ==> ReadCell(w.values, c) == CIRCULAR && OnMarked(g, affected, w.cycles, c)
  }

  ghost predicate OthersKept(affected: set<Cell>, base: Sheet, values: Sheet) {
    AllData(values) && forall c :: c !in affected ==> ReadCell(values, c) == ReadCell(base, c)
  }

  ghost predicate Sound(g: Graph, affected: set<Cell>, base: Sheet, w: Walk) {
    Shaped(g, affected, w) && AllSettled(g, affected, w) && AllMarked(g, affected, w) && OthersKept(affected, base, w.values)
  }

  // The cell may be visited next: first of all, or from the formula on top.
  predicate MayVisit(g: Graph, w: Walk, a: Cell) { w.stack == [] || a in g.DepsOf(w.stack[|w.stack| - 1]) }

  lemma PushKeeps(g: Graph, affected: set<Cell>, base: Sheet, w: Walk, a: Cell)
    requires Sound(g, affected, base, w) && a in affected && a !in w.Seen() && MayVisit(g, w, a)
    ensures Sound(g, affected, base, w.(stack := w.stack + [a]))
  {
    hide OnMarked, OthersKept;
    var p := w.(stack := w.stack + [a]);
    assert p.Seen() == w.Seen() + {a};
    assert forall i :: 0 <= i < |w.finished| && Settled(g, affected, w, i) ==> Settled(g, affected, p, i);
  }

  // New values away from the finished formulas leave them settled.
  lemma StaySettled(g: Graph, affected: set<Cell>, w: Walk, values: Sheet, i: nat)
    requires Local(g) && i < |w.finished| && Settled(g, affected, w, i) && AllData(w.values) && AllData(values)
    requires forall c :: c !in affected || c in w.finished ==> ReadCell(values, c) == ReadCell(w.values, c)
    ensures Settled(g, affected, w.(values := values), i)
  {
    var c := w.finished[i];
    forall d | d in g.DepsOf(c) ensures ReadCell(w.values, d) == ReadCell(values, d) {
      if d in affected { assert d in w.finished[..i]; }
    }
    assert SameOn(g.DepsOf(c), w.values, values);
  }

  lemma MarkKeeps(g: Graph, affected: set<Cell>, base: Sheet, w: Walk, a: Cell)
    requires Local(g) && Sound(g, affected, base, w) && a in affected && a in w.stack && MayVisit(g, w, a)
    ensures var members := Elements(From(w.stack, a));
            Sound(g, affected, base, w.(cycles := w.cycles + members, values := Marked(w.values, members)))
  {
    hide Local, Marked, Cycle, Chain, From, AllSettled, AllMarked, Distinct;
    var members := Elements(From(w.stack, a));
    var r := w.(cycles := w.cycles + members, values := Marked(w.values, members));
    StackCycle(g, affected, w, a);
    assert members <= Elements(w.stack);
    MarkedReads(w.values, members);
    assert r.Seen() == w.Seen();
    MarkSettled(g, affected, w, r);
    MarkMarked(g, affected, w, r, From(w.stack, a));
  }

  lemma MarkSettled(g: Graph, affected: set<Cell>, w: Walk, r: Walk)
    requires Local(g) && AllSettled(g, affected, w) && AllData(w.values) && AllData(r.values)
    requires r.stack == w.stack && r.finished == w.finished && w.cycles <= r.cycles
    requires forall c :: c !in affected || c in w.finished ==> ReadCell(r.values, c) == ReadCell(w.values, c)
    ensures AllSettled(g, affected, r)
  {
    hide Local;
    forall i | 0 <= i < |r.finished| && r.finished[i] !in r.cycles ensures Settled(g, affected, r, i) {
      StaySettled(g, affected, w, r.values, i);
    }
  }

  lemma MarkMarked(g: Graph, affected: set<Cell>, w: Walk, r: Walk, path: seq<Cell>)
    requires AllMarked(g, affected, w) && Cycle(g, affected, path) && r.cycles == w.cycles + Elements(path)
    requires forall c :: ReadCell(r.values, c) == if c in path then CIRCULAR else ReadCell(w.values, c)
    ensures AllMarked(g, affected, r)
  {
    hide Cycle;
    forall c | c in r.cycles ensures OnMarked(g, affected, r.cycles, c) {
      if c in path { assert Elements(path) <= r.cycles; } else { MoreMarked(g, affected, w.cycles, r.cycles, c); }
    }
  }

  lemma MoreMarked(g: Graph, affected: set<Cell>, marked: set<Cell>, more: set<Cell>, c: Cell)
    requires OnMarked(g, affected, marked, c) && marked <= more
    ensures OnMarked(g, affected, more, c)
  {
  }

  lemma MarkedReads(values: Sheet, members: set<Cell>)
    ensures forall c :: ReadCell(Marked(values, members), c) == if c in members then CIRCULAR else ReadCell(values, c)
    ensures AllData(values) ==> AllData(Marked(values, members))
  {
  }

  // The stack from a formula met again on is a cycle.
  lemma StackCycle(g: Graph, affected: set<Cell>, w: Walk, a: Cell)
    requires Shaped(g, affected, w) && a in w.stack && a in g.DepsOf(w.stack[|w.stack| - 1])
    ensures Cycle(g, affected, From(w.stack, a)) && forall c :: c in From(w.stack, a) ==> c in w.stack
    ensures w.stack[|w.stack| - 1] in From(w.stack, a)
  {
    hide From;
    var path := From(w.stack, a);
    ChainEnd(g, w.stack, |w.stack| - |path|);
    assert path[|path| - 1] == w.stack[|w.stack| - 1];
    assert Elements(w.stack) <= w.Seen();
  }

  lemma ChainEnd(g: Graph, cells: seq<Cell>, k: nat)
    requires Chain(g, cells) && k <= |cells|
    ensures Chain(g, cells[k..]) && Elements(cells[k..]) <= Elements(cells) && forall c :: c in cells[k..] ==> c in cells
  {
    hide Graph.DepsOf;
    var path := cells[k..];
    forall i | 0 <= i < |path| - 1 ensures path[i + 1] in g.DepsOf(path[i]) {
      assert path[i] == cells[k + i] && path[i + 1] == cells[k + i + 1];
      assert cells[(k + i) + 1] in g.DepsOf(cells[k + i]);
    }
  }

  // Leaving the top of the stack: marked, or evaluated on finished dependencies.
  lemma FinishKeeps(g: Graph, affected: set<Cell>, base: Sheet, w: Walk, a: Cell)
    requires Local(g) && Sound(g, affected, base, w) && w.stack != [] && w.stack[|w.stack| - 1] == a && a in affected
    requires a in w.cycles || forall d :: d in g.DepsOf(a) && d in affected ==> d in w.finished
    ensures Sound(g, affected, base,
                  Walk(if a in w.cycles then w.values else w.values[a := g.compute(a, w.values)],
                       w.stack[..|w.stack| - 1], w.finished + [a], w.cycles))
  {
    hide Local, OnMarked;
    var below := w.stack[..|w.stack| - 1];
    assert w.stack == below + [a];
    var values := if a in w.cycles then w.values else w.values[a := g.compute(a, w.values)];
    var r := Walk(values, below, w.finished + [a], w.cycles);
    assert a in w.stack && r.Seen() == w.Seen();
    assert a in Elements(w.stack);
    ComputedIsData(g, w.values, a);
    PopShaped(g, affected, w, r, a);
    forall i | 0 <= i < |r.finished| && r.finished[i] !in r.cycles ensures Settled(g, affected, r, i) {
      if i < |w.finished| {
        assert r.finished[i] == w.finished[i] && r.finished[..i] == w.finished[..i];
        StaySettled(g, affected, w, values, i);
      } else {
        TopSettled(g, affected, w, a);
        assert r.finished[..i] == w.finished;
      }
    }
  }

  lemma ComputedIsData(g: Graph, values: Sheet, a: Cell)
    requires Local(g) && AllData(values)
    ensures AllData(values[a := g.compute(a, values)])
  {
  }

  lemma PopShaped(g: Graph, affected: set<Cell>, w: Walk, r: Walk, a: Cell)
    requires Shaped(g, affected, w) && w.stack == r.stack + [a] && r.finished == w.finished + [a] && r.cycles == w.cycles
    ensures Shaped(g, affected, r)
  {
    assert a in w.stack;
    assert forall i :: 0 <= i < |r.stack| ==> r.stack[i] == w.stack[i];
    assert forall c :: c in Elements(w.stack) <==> c in r.stack || c == a;
    assert forall c :: c in r.finished <==> c in w.finished || c == a;
    assert w.stack[|w.stack| - 1] == a;
    forall i | 0 <= i < |w.finished| ensures w.finished[i] != a {
      assert w.finished[i] in Elements(w.finished);
    }
  }

  lemma TopSettled(g: Graph, affected: set<Cell>, w: Walk, a: Cell)
    requires Local(g) && AllData(w.values) && a in affected && a !in w.finished
    requires forall d :: d in g.DepsOf(a) && d in affected ==> d in w.finished
    ensures var values := w.values[a := g.compute(a, w.values)];
            ReadCell(values, a) == g.compute(a, values)
  {
    var values := w.values[a := g.compute(a, w.values)];
    ComputedIsData(g, w.values, a);
    assert SameOn(g.DepsOf(a), w.values, values);
  }

  lemma {:induction false} CalcKeeps(g: Graph, affected: set<Cell>, base: Sheet, w: Walk, a: Cell)
    requires Local(g) && Sound(g, affected, base, w) && a in affected && MayVisit(g, w, a)
    ensures var r := Calc(g, affected, w, a);
            && Sound(g, affected, base, r)
            && (a in r.finished || (a in w.stack && w.stack[|w.stack| - 1] in r.cycles))
    decreases affected - w.Seen(), 0
  {
    hide Local, Sound, CalcAll;
    if a in w.finished {
    } else if a in w.stack {
      MarkKeeps(g, affected, base, w, a);
      TopIsMarked(g, affected, base, w, a);
    } else {
      var pushed := w.(stack := w.stack + [a]);
      assert pushed.Seen() == w.Seen() + {a} && a in affected - w.Seen();
      PushKeeps(g, affected, base, w, a);
      CalcAllKeep(g, affected, base, pushed, g.DepsOf(a));
      var inner := CalcAll(g, affected, pushed, g.DepsOf(a));
      FinishKeeps(g, affected, base, inner, a);
      assert inner.stack[..|inner.stack| - 1] == w.stack;
    }
  }

  lemma TopIsMarked(g: Graph, affected: set<Cell>, base: Sheet, w: Walk, a: Cell)
    requires Sound(g, affected, base, w) && a in w.stack && MayVisit(g, w, a)
    ensures w.stack[|w.stack| - 1] in Elements(From(w.stack, a))
  {
    StackCycle(g, affected, w, a);
  }

  lemma {:induction false} CalcAllKeep(g: Graph, affected: set<Cell>, base: Sheet, w: Walk, cells: seq<Cell>)
    requires Local(g) && Sound(g, affected, base, w) && forall c :: c in cells ==> MayVisit(g, w, c)
    ensures var r := CalcAll(g, affected, w, cells);
            && Sound(g, affected, base, r)
            && (forall d :: d in cells && d in affected ==>
                              d in r.finished || (d in w.stack && w.stack[|w.stack| - 1] in r.cycles))
    decreases affected - w.Seen(), 1 + |cells|
  {
    hide Local, Sound, Calc;
    if cells != [] {
      var a, rest := cells[0], cells[1..];
      assert cells == [a] + rest;
      var next := if a in affected then Calc(g, affected, w, a) else w;
      if a in affected { CalcKeeps(g, affected, base, w, a); }
      forall c | c in rest ensures MayVisit(g, next, c) { assert c in cells; }
      CalcAllKeep(g, affected, base, next, rest);
    }
  }

  // -------- what a whole recalculation gives --------

  function Start(base: Sheet): Walk { Walk(base, [], [], {}) }

  // Every affected formula that is not marked holds its value on the final values;
  // marked ones hold the error and lie on a cycle marked throughout, and every
  // cycle has a marked one; nothing else has changed.
  ghost predicate Recalculated(g: Graph, affected: set<Cell>, base: Sheet, values: Sheet, cycles: set<Cell>) {
    && OthersKept(affected, base, values)
    && cycles <= affected
    && (forall c :: c in affected && c !in cycles ==> ReadCell(values, c) == g.compute(c, values))
    && (forall c :: c in cycles ==> ReadCell(values, c) == CIRCULAR && OnMarked(g, affected, cycles, c))
    && (forall path :: Cycle(g, affected, path) ==> exists c :: c in path && c in cycles)
  }

  // Another sheet on which all affected formulas hold and the rest is as it was.
  ghost predicate Solves(g: Graph, affected: set<Cell>, base: Sheet, values: Sheet) {
    OthersKept(affected, base, values) && forall c :: c in affected ==> ReadCell(values, c) == g.compute(c, values)
  }

  lemma StartIsSound(g: Graph, affected: set<Cell>, base: Sheet)
    requires AllData(base)
    ensures Sound(g, affected, base, Start(base))
  {
  }

  lemma WalkRecalculates(g: Graph, affected: set<Cell>, base: Sheet, addresses: seq<Cell>)
    requires Local(g) && AllData(base) && Elements(addresses) == affected
    ensures var r := CalcAll(g, affected, Start(base), addresses);
            && Recalculated(g, affected, base, r.values, r.cycles)
            && (r.cycles == {} ==> forall other :: Solves(g, affected, base, other) ==> forall c :: ReadCell(other, c) == ReadCell(r.values, c))
  {
    hide Local, Sound, CalcAll, Recalculated, Solves, IsAffected;
    StartIsSound(g, affected, base);
    CalcAllKeep(g, affected, base, Start(base), addresses);
    var r := CalcAll(g, affected, Start(base), addresses);
    forall c | c in affected ensures c in r.finished { assert c in Elements(addresses); }
    FinishedIsRight(g, affected, base, r);
    if r.cycles == {} {
      forall other | Solves(g, affected, base, other) ensures forall c :: ReadCell(other, c) == ReadCell(r.values, c) {
        OnlySolution(g, affected, base, r, other);
      }
    }
  }

  lemma FinishedIsRight(g: Graph, affected: set<Cell>, base: Sheet, r: Walk)
    requires Sound(g, affected, base, r) && r.stack == [] && forall c :: c in affected ==> c in r.finished
    ensures Recalculated(g, affected, base, r.values, r.cycles)
  {
    hide OthersKept, OnMarked, Cycle, Settled;
    forall c | c in affected && c !in r.cycles ensures ReadCell(r.values, c) == g.compute(c, r.values) {
      var i :| 0 <= i < |r.finished| && r.finished[i] == c;
      assert Settled(g, affected, r, i) && r.finished[i] == c;
      SettledHolds(g, affected, r, i);
    }
    forall path | Cycle(g, affected, path) ensures exists c :: c in path && c in r.cycles {
      EveryCycleIsMarked(g, affected, base, r, path);
    }
  }

  lemma SettledHolds(g: Graph, affected: set<Cell>, w: Walk, i: nat)
    requires i < |w.finished| && Settled(g, affected, w, i)
    ensures ReadCell(w.values, w.finished[i]) == g.compute(w.finished[i], w.values)
  {
  }

  // When a formula was finished.
  function Turn(finished: seq<Cell>, c: Cell): (i: nat)
    requires c in finished
    ensures i < |finished| && finished[i] == c
  {
    if finished[0] == c then 0 else 1 + Turn(finished[1..], c)
  }

  // An unmarked formula is finished after everything affected it depends on.
  lemma DependencyFirst(g: Graph, affected: set<Cell>, base: Sheet, r: Walk, c: Cell, d: Cell)
    requires Sound(g, affected, base, r) && c in r.finished && c !in r.cycles && d in g.DepsOf(c) && d in affected
    ensures d in r.finished && Turn(r.finished, d) < Turn(r.finished, c)
  {
    hide Turn, OnMarked, OthersKept, Chain;
    var i := Turn(r.finished, c);
    assert Settled(g, affected, r, i);
    var j :| 0 <= j < i && r.finished[j] == d;
    assert r.finished[Turn(r.finished, d)] == r.finished[j];
  }

  lemma {:induction false} TurnsFall(g: Graph, affected: set<Cell>, base: Sheet, r: Walk, path: seq<Cell>, k: nat)
    requires Sound(g, affected, base, r) && Cycle(g, affected, path) && k < |path|
    requires forall c :: c in path ==> c !in r.cycles && c in r.finished
    ensures Turn(r.finished, path[k]) + k <= Turn(r.finished, path[0])
    decreases k
  {
    hide Sound, Turn;
    if k > 0 {
      TurnsFall(g, affected, base, r, path, k - 1);
      assert path[(k - 1) + 1] in g.DepsOf(path[k - 1]) && path[k] in Elements(path);
      DependencyFirst(g, affected, base, r, path[k - 1], path[k]);
    }
  }

  lemma EveryCycleIsMarked(g: Graph, affected: set<Cell>, base: Sheet, r: Walk, path: seq<Cell>)
    requires Sound(g, affected, base, r) && Cycle(g, affected, path) && forall c :: c in affected ==> c in r.finished
    ensures exists c :: c in path && c in r.cycles
  {
    hide Sound, Turn;
    if forall c :: c in path ==> c !in r.cycles {
      var last := |path| - 1;
      forall c | c in path ensures c in r.finished { assert c in Elements(path); }
      TurnsFall(g, affected, base, r, path, last);
      assert path[0] in Elements(path);
      DependencyFirst(g, affected, base, r, path[last], path[0]);
      assert false;
    }
  }

  // No two different cycles share a cell.
  ghost predicate CyclesApart(g: Graph, affected: set<Cell>) {
    forall p, q, c :: Cycle(g, affected, p) && Cycle(g, affected, q) && c in p && c in q ==> Elements(p) == Elements(q)
  }

  // Then every cell on a cycle is marked.
  lemma ApartIsMarked(g: Graph, affected: set<Cell>, base: Sheet, values: Sheet, cycles: set<Cell>, c: Cell)
    requires Recalculated(g, affected, base, values, cycles) && CyclesApart(g, affected)
    ensures OnCycle(g, affected, c) <==> c in cycles
  {
    hide Cycle, OthersKept, CyclesApart;
    if c in cycles {
      assert OnMarked(g, affected, cycles, c);
    }
    if OnCycle(g, affected, c) {
      var path :| Cycle(g, affected, path) && c in path;
      var m :| m in path && m in cycles;
      SharedIsMarked(g, affected, cycles, path, m);
      assert c in Elements(path);
    }
  }

  lemma SharedIsMarked(g: Graph, affected: set<Cell>, cycles: set<Cell>, path: seq<Cell>, m: Cell)
    requires CyclesApart(g, affected) && Cycle(g, affected, path) && m in path && OnMarked(g, affected, cycles, m)
    ensures Elements(path) <= cycles
  {
    hide Cycle, Elements;
    var marked :| Cycle(g, affected, marked) && m in marked && Elements(marked) <= cycles;
  }

  // Without cycles the values are the only ones that fit, whatever the order the
  // formulas were visited in.
  lemma OnlySolution(g: Graph, affected: set<Cell>, base: Sheet, r: Walk, other: Sheet)
    requires Local(g) && Sound(g, affected, base, r) && r.cycles == {} && Solves(g, affected, base, other)
    requires forall c :: c in affected ==> c in r.finished
    ensures forall c :: ReadCell(other, c) == ReadCell(r.values, c)
  {
    hide Local, Sound;
    SolvedUpTo(g, affected, base, r, other, |r.finished|);
    assert r.finished[..|r.finished|] == r.finished;
    assert OthersKept(affected, base, r.values) by { SoundKeepsOthers(g, affected, base, r); }
  }

  lemma SoundKeepsOthers(g: Graph, affected: set<Cell>, base: Sheet, r: Walk)
    requires Sound(g, affected, base, r)
    ensures OthersKept(affected, base, r.values)
  {
  }

  lemma {:induction false} SolvedUpTo(g: Graph, affected: set<Cell>, base: Sheet, r: Walk, other: Sheet, n: nat)
    requires Local(g) && Sound(g, affected, base, r) && r.cycles == {} && Solves(g, affected, base, other) && n <= |r.finished|
    ensures forall c :: c in r.finished[..n] ==> ReadCell(other, c) == ReadCell(r.values, c)
    decreases n
  {
    hide OnMarked, Chain, Distinct;
    if n > 0 {
      var i := n - 1;
      var c := r.finished[i];
      SolvedUpTo(g, affected, base, r, other, i);
      assert Settled(g, affected, r, i);
      assert SameOn(g.DepsOf(c), other, r.values);
      assert c in r.Seen();
      assert r.finished[..n] == r.finished[..i] + [c];
    }
  }

  // A formula the change does not reach still holds if it held before: what it
  // depends on is as it was.
  lemma UnaffectedStillHolds(g: Graph, changed: set<Cell>, affected: set<Cell>, before: Sheet, base: Sheet, values: Sheet, c: Cell)
    requires Local(g) && IsAffected(g, changed, affected) && OthersKept(affected, base, values)
    requires AllData(before) && (forall d :: d !in changed ==> ReadCell(before, d) == ReadCell(base, d))
    requires c in g.deps && c !in affected && ReadCell(before, c) == g.compute(c, before)
    ensures ReadCell(values, c) == g.compute(c, values)
  {
    assert c !in changed;
    forall d | d in g.DepsOf(c) ensures ReadCell(before, d) == ReadCell(values, d) {
      assert d !in changed && d !in affected;
    }
    assert SameOn(g.DepsOf(c), before, values);
  }

  // So if every formula held before some cells changed, every formula holds after
  // recalculating but for the cells marked circular.
  lemma SheetHoldsAgain(g: Graph, changed: set<Cell>, affected: set<Cell>, before: Sheet, base: Sheet, values: Sheet, cycles: set<Cell>)
    requires Local(g) && IsAffected(g, changed, affected) && Recalculated(g, affected, base, values, cycles)
    requires AllData(before) && (forall d :: d !in changed ==> ReadCell(before, d) == ReadCell(base, d))
    requires forall c :: c in g.deps && c !in affected ==> ReadCell(before, c) == g.compute(c, before)
    ensures forall c :: c in g.deps && c !in cycles ==> ReadCell(values, c) == g.compute(c, values)
  {
    hide Local, IsAffected, Cycle, OnMarked;
    forall c | c in g.deps && c !in cycles ensures ReadCell(values, c) == g.compute(c, values) {
      if c !in affected { UnaffectedStillHolds(g, changed, affected, before, base, values, c); }
    }
  }
}
