/**
  The recalculation as the program runs it: a recursive walk that moves states,
  stack, values and marks in place.  Each call leaves exactly what the walk of
  `Recalculation` gives.  Then the graph of a sheet's formulas, and a cell on a
  cycle that goes unmarked.
*/
module Recalculator {
  import opened CellAddress
  import opened FormulaSyntax
  import opened Grammar
  import opened Evaluator
  import opened Dependencies
  import opened Recalculation

  datatype Progress = Visiting | Done

  class Calculator {
    const g: Graph
    const affected: set<Cell>
    var values: Sheet
    var states: map<Cell, Progress>
    var stack: seq<Cell>
    var cycles: set<Cell>
    ghost var finished: seq<Cell>

    ghost predicate Valid()
      reads this
    {
      && Distinct(stack)
      && (forall c :: c in stack <==> c in states && states[c].Visiting?)
      && (forall c :: c in finished <==> c in states && states[c].Done?)
    }

    ghost function Now(): Walk
      reads this
    {
      Walk(values, stack, finished, cycles)
    }

    constructor (graph: Graph, cells: set<Cell>, base: Sheet)
      ensures Valid() && g == graph && affected == cells && Now() == Start(base)
    {
      g, affected, values, states, stack, cycles, finished := graph, cells, base, map[], [], {}, [];
    }

    // The cells on the stack from `address` on are circular.
    method MarkCycle(address: Cell)
      requires Valid() && address in stack
      modifies `values, `cycles
      ensures Valid()
      ensures var members := Elements(From(stack, address));
              cycles == old(cycles) + members && values == Marked(old(values), members)
    {
      hide Marked, From, Distinct;
      var start := StackIndex(address);
      MarkedNone(values);
      var i := start;
      while i < |stack|
        invariant start <= i <= |stack|
        invariant cycles == old(cycles) + Elements(stack[start..i])
        invariant values == Marked(old(values), Elements(stack[start..i]))
      {
        assert stack[start..i + 1] == stack[start..i] + [stack[i]];
        assert Elements(stack[start..i + 1]) == Elements(stack[start..i]) + {stack[i]};
        MarkedOneMore(old(values), Elements(stack[start..i]), stack[i]);
        cycles := cycles + {stack[i]};
        values := values[stack[i] := CIRCULAR];
        i := i + 1;
      }
      assert stack[start..i] == stack[start..];
    }

    method StackIndex(address: Cell) returns (start: nat)
      requires address in stack
      ensures start < |stack| && From(stack, address) == stack[start..]
    {
      hide From;
      start := 0;
      assert stack[0..] == stack;
      FromStep(stack, address, 0);
      while stack[start] != address
        invariant start < |stack| && address in stack[start..] && From(stack, address) == From(stack[start..], address)
        decreases |stack| - start
      {
        FromStep(stack, address, start);
        start := start + 1;
      }
      FromStep(stack, address, start);
    }

    method Calculate(address: Cell)
      requires Valid() && address in affected
      modifies `values, `states, `stack, `cycles, `finished
      ensures Valid() && Now() == Calc(g, affected, old(Now()), address)
      decreases affected - Now().Seen(), 0
    {
      hide Calc, CalcAll, From, Marked, Distinct, Walk.Seen;
      ghost var before := Now();
      CalcSeen(g, affected, before, address);
      if address in states && states[address].Done? { return; }
      if address in states {
        MarkCycle(address);
        return;
      }
      Push(address);
      CalcUnseen(g, affected, before, address);
      CalculateAll(g.DepsOf(address));
      if address !in cycles {
        values := values[address := g.compute(address, values)];
      }
      Pop(address);
      assert stack == before.stack;
    }

    method Push(address: Cell)
      requires Valid() && address !in states
      modifies `states, `stack
      ensures Valid() && stack == old(stack) + [address] && address !in old(stack) && address !in finished
    {
      assert address !in stack;
      states, stack := states[address := Visiting], stack + [address];
    }

    method Pop(address: Cell)
      requires Valid() && stack != [] && stack[|stack| - 1] == address
      modifies `states, `stack, `finished
      ensures Valid() && stack == old(stack)[..|old(stack)| - 1] && finished == old(finished) + [address]
    {
      assert address in stack;
      stack, states, finished := stack[..|stack| - 1], states[address := Done], finished + [address];
      assert old(stack) == stack + [address];
    }

    method CalculateAll(cells: seq<Cell>)
      requires Valid()
      modifies `values, `states, `stack, `cycles, `finished
      ensures Valid() && Now() == CalcAll(g, affected, old(Now()), cells)
      decreases affected - Now().Seen(), 1 + |cells|
    {
      hide CalcAll, Calc, Valid;
      var i := 0;
      assert cells[0..] == cells;
      while i < |cells|
        invariant 0 <= i <= |cells| && Valid()
        invariant CalcAll(g, affected, Now(), cells[i..]) == CalcAll(g, affected, old(Now()), cells)
        invariant affected - Now().Seen() <= affected - old(Now().Seen())
      {
        CalcAllStep(g, affected, Now(), cells, i);
        if cells[i] in affected { Calculate(cells[i]); }
        i := i + 1;
      }
      CalcAllNone(g, affected, Now(), cells);
    }
  }

  // Recalculate: `sorted` lists a set of addresses in the order of their texts.
  method Recalculate(g: Graph, base: Sheet, changed: seq<Cell>, sorted: set<Cell> -> seq<Cell>)
    returns (values: Sheet, cycles: set<Cell>, affected: set<Cell>)
    requires Local(g) && AllData(base) && forall cells :: Elements(sorted(cells)) == cells
    ensures IsAffected(g, Elements(changed), affected)
    ensures Recalculated(g, affected, base, values, cycles)
    ensures cycles == {} ==> forall other :: Solves(g, affected, base, other) ==> forall c :: ReadCell(other, c) == ReadCell(values, c)
  {
    hide Local, Recalculated, Solves, IsAffected;
    affected := FindAffected(g, changed);
    var calculator := new Calculator(g, affected, base);
    var addresses := sorted(affected);
    calculator.CalculateAll(addresses);
    WalkRecalculates(g, affected, base, addresses);
    values, cycles := calculator.values, calculator.cycles;
  }

  // -------- the graph of a sheet's formulas --------

  // A formula as the parser left it: what it depends on, its tree or the error
  // the parser gave, and an error the cell is given from outside.
  datatype Entry = Entry(deps: seq<Cell>, root: Option<Node>, code: string, forced: Option<string>)

  // `finish` makes an outcome something a cell can hold.
  function Evaluated(e: Entry, ops: Ops, finish: Outcome<Value> -> Value, fuel: nat, s: Sheet): Value {
    if e.root.None? then Failure(e.code)
    else if e.forced.Some? then Failure(e.forced.value)
    else finish(Machine(s, ops).Eval(fuel, e.root.value, map[]))
  }

  function GraphOf(entries: map<Cell, Entry>, ops: Ops, finish: Outcome<Value> -> Value, fuel: nat): Graph {
    Graph(map c | c in entries :: entries[c].deps,
          (c: Cell, s: Sheet) => if c in entries then Evaluated(entries[c], ops, finish, fuel, s) else Blank)
  }

  // The entry of a formula's tokens; `listed` puts its dependencies in order, and
  // `code` is the error of a formula that does not parse.
  function EntryOf(src: Source, code: string, forced: Option<string>, listed: set<Cell> -> seq<Cell>): Entry
    requires src.Valid()
  {
    var p := src.Formula();
    Entry(listed(p.st.deps), p.node, code, forced)
  }

  ghost predicate Covered(e: Entry) { e.root.Some? ==> Steady(e.root.value) && Refs(e.root.value) <= Elements(e.deps) }

  lemma ParsedIsCovered(src: Source, code: string, forced: Option<string>, listed: set<Cell> -> seq<Cell>)
    requires src.Valid() && (forall cells :: Elements(listed(cells)) == cells) && (src.Formula().node.Some? ==> Steady(src.Formula().node.value))
    ensures Covered(EntryOf(src, code, forced, listed))
  {
    if src.Formula().node.Some? { RefsCovered(src); }
  }

  // So recalculating applies to every sheet of parsed formulas without dynamic
  // references, clocks or chance.
  lemma FormulasAreLocal(entries: map<Cell, Entry>, ops: Ops, finish: Outcome<Value> -> Value, fuel: nat)
    requires forall c :: c in entries ==> Covered(entries[c])
    requires (forall D :: Honest(ops, D)) && forall o :: Data(finish(o))
    ensures Local(GraphOf(entries, ops, finish, fuel))
  {
    hide Covered, Honest, Machine.Eval;
    var g := GraphOf(entries, ops, finish, fuel);
    forall c, s, t | AllData(s) && AllData(t) && SameOn(g.DepsOf(c), s, t) ensures g.compute(c, s) == g.compute(c, t) {
      if c in entries {
        assert g.DepsOf(c) == entries[c].deps;
        EntryIsLocal(entries[c], ops, finish, fuel, s, t);
      }
    }
  }

  lemma EntryIsLocal(e: Entry, ops: Ops, finish: Outcome<Value> -> Value, fuel: nat, s: Sheet, t: Sheet)
    requires Covered(e) && (forall D :: Honest(ops, D)) && AllData(s) && AllData(t) && SameOn(e.deps, s, t)
    ensures Evaluated(e, ops, finish, fuel, s) == Evaluated(e, ops, finish, fuel, t)
  {
    hide Machine.Eval, Honest, Steady;
    if e.root.Some? {
      var n, D := e.root.value, Elements(e.deps);
      SteadyWithin(n, D);
      assert Data(Blank);
      forall c | c in D ensures ReadCell(s, c) == ReadCell(t, c) && ValueWithin(ReadCell(s, c), D) { DataWithin(ReadCell(s, c), D); }
      SameEval(Machine(s, ops), Machine(t, ops), D, fuel, n, map[]);
    }
  }

  // -------- a cell on a cycle that is not marked --------

  lemma CalcOne(g: Graph, affected: set<Cell>, w: Walk, a: Cell)
    requires a in affected
    ensures CalcAll(g, affected, w, [a]) == Calc(g, affected, w, a)
  {
    CalcAllStep(g, affected, w, [a], 0);
    assert [a][0..] == [a] && [a][1..] == [];
    CalcAllNone(g, affected, Calc(g, affected, w, a), []);
  }

  lemma CalcTwo(g: Graph, affected: set<Cell>, w: Walk, a: Cell, b: Cell)
    requires a in affected && b in affected
    ensures CalcAll(g, affected, w, [a, b]) == Calc(g, affected, Calc(g, affected, w, a), b)
  {
    hide Calc, CalcAll;
    CalcAllStep(g, affected, w, [a, b], 0);
    assert [a, b][0..] == [a, b] && [a, b][1..] == [b];
    CalcOne(g, affected, Calc(g, affected, w, a), b);
  }

  // A1 depends on B1 and C1, B1 on A1, and C1 on B1.
  predicate Triangle(g: Graph, a: Cell, b: Cell, c: Cell) {
    a != b && a != c && b != c && g.DepsOf(a) == [b, c] && g.DepsOf(b) == [a] && g.DepsOf(c) == [b]
  }

  // From A1 the walk comes to B1, meets A1 again and marks both.
  lemma VisitB(g: Graph, base: Sheet, a: Cell, b: Cell, c: Cell)
    requires Triangle(g, a, b, c)
    ensures Calc(g, {a, b, c}, Walk(base, [a], [], {}), b) == Walk(Marked(base, {a, b}), [a], [b], {a, b})
  {
    hide Calc, CalcAll, From, Marked, Walk.Seen, Graph.DepsOf;
    var all, w, inB := {a, b, c}, Walk(base, [a], [], {}), Walk(base, [a, b], [], {});
    assert [a] + [b] == [a, b] && [] + [b] == [b] && {} + {a, b} == {a, b};
    CalcUnseen(g, all, w, b);
    CalcOne(g, all, inB, a);
    CalcSeen(g, all, inB, a);
    FromFirst(a, b);
    assert Elements([a, b]) == {a, b};
  }

  // Then to C1, which finds B1 finished.
  lemma VisitC(g: Graph, values: Sheet, a: Cell, b: Cell, c: Cell)
    requires Triangle(g, a, b, c)
    ensures Calc(g, {a, b, c}, Walk(values, [a], [b], {a, b}), c)
         == Walk(values[c := g.compute(c, values)], [a], [b, c], {a, b})
  {
    hide Calc, CalcAll, From, Marked, Walk.Seen, Graph.DepsOf;
    var all, w, inC := {a, b, c}, Walk(values, [a], [b], {a, b}), Walk(values, [a, c], [b], {a, b});
    assert [a] + [c] == [a, c] && [b] + [c] == [b, c];
    CalcUnseen(g, all, w, c);
    CalcOne(g, all, inC, b);
    CalcSeen(g, all, inC, b);
  }

  // So C1 lies on the cycle A1, C1, B1, is not marked, and is evaluated on B1's
  // error.
  lemma UnmarkedOnCycle(g: Graph, base: Sheet, a: Cell, b: Cell, c: Cell)
    requires Triangle(g, a, b, c)
    ensures var r := CalcAll(g, {a, b, c}, Start(base), [a, b, c]);
            OnCycle(g, {a, b, c}, c) && r.cycles == {a, b} && ReadCell(r.values, c) == g.compute(c, Marked(base, {a, b}))
  {
    hide Calc, CalcAll, From, Marked, Walk.Seen, Graph.DepsOf;
    var all, w, inA := {a, b, c}, Start(base), Walk(base, [a], [], {});
    var values := Marked(base, {a, b});
    assert [] + [a] == [a] && [b, c] + [a] == [b, c, a];
    VisitB(g, base, a, b, c);
    VisitC(g, values, a, b, c);
    CalcTwo(g, all, inA, b, c);
    CalcUnseen(g, all, w, a);
    AllFinished(g, all, w, Walk(values[c := g.compute(c, values)], [], [b, c, a], {a, b}), a, b, c);
    TriangleIsCycle(g, a, b, c);
  }

  lemma TriangleIsCycle(g: Graph, a: Cell, b: Cell, c: Cell)
    requires Triangle(g, a, b, c)
    ensures OnCycle(g, {a, b, c}, c)
  {
    assert Cycle(g, {a, b, c}, [a, c, b]) && c in [a, c, b];
  }

  lemma FromFirst(a: Cell, b: Cell)
    ensures From([a, b], a) == [a, b]
  {
  }

  lemma AllFinished(g: Graph, affected: set<Cell>, w: Walk, end: Walk, a: Cell, b: Cell, c: Cell)
    requires affected == {a, b, c} && Calc(g, affected, w, a) == end && end.finished == [b, c, a]
    ensures CalcAll(g, affected, w, [a, b, c]) == end
  {
    hide Calc, CalcAll;
    CalcAllStep(g, affected, w, [a, b, c], 0);
    assert [a, b, c][0..] == [a, b, c] && [a, b, c][1..] == [b, c];
    CalcTwo(g, affected, end, b, c);
    CalcSeen(g, affected, end, b);
    CalcSeen(g, affected, end, c);
  }
}
