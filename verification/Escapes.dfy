/**
  What the dependencies of a formula leave out: references without an end, which
  grow with the sheet, and references computed from values.
*/
module Escapes {
  import opened CellAddress
  import opened FormulaSyntax
  import opened Grammar
  import opened Evaluator
  import opened Extents
  import opened Dependencies
  import Printer

  // The formula A:A.
  const WHOLE_COLUMN: seq<Token> := [TName("A"), TColon, TName("A"), TEnd]

  lemma WholeColumnIs(scope: Scope, e: string -> Extent)
    requires 1 <= e(scope.currentSheet).rows <= 2
    ensures var sheet, rows := scope.currentSheet, e(scope.currentSheet).rows;
            var first, second := Cell(sheet, 1, 1), Cell(sheet, 2, 1);
            Reading(WHOLE_COLUMN, scope, e).Formula()
            == if rows == 1 then Done(Reference(first), State(3, {first}, [], 0))
            else Done(Range(2, 1, [first, second]), State(3, {first, second}, [], 0))
  {
    hide Source.Formula, Source.Expression, Source.Operators, Source.Prefix, BuildRange, Source.CellReference;
    var src, sheet, rows := Reading(WHOLE_COLUMN, scope, e), scope.currentSheet, e(scope.currentSheet).rows;
    ColumnPrefix(src);
    WholeColumnCells(src, rows);
    var p := BuildRange(src.scope, "", Rect(1, 1, rows, 1), State(3, {}, [], 0));
    Printer.StepExpression(src, 0, State(0, {}, [], 0), p);
    Printer.StopOperators(src, p.node.value, 0, p.st);
    EndsThere(src, p);
  }

  lemma ColumnPrefix(src: Source)
    requires src.tokens == WHOLE_COLUMN
    ensures src.Prefix(State(0, {}, [], 0)) == BuildRange(src.scope, "", Rect(1, 1, ExtentFor(src.scope, "").rows, 1), State(3, {}, [], 0))
  {
    hide Source.Expression, Source.ArrayRows, Source.Qualified, Source.Named, BuildRange;
    var s, s1 := State(0, {}, [], 0), State(1, {}, [], 0);
    ColumnA();
    assert src.PlainName("A", s1) == src.CellReference("", "A", s1);
    assert src.Primary(s) == src.PlainName("A", s1);
  }

  lemma WholeColumnCells(src: Source, rows: int)
    requires 1 <= rows <= 2
    ensures var first, second := Cell(src.scope.currentSheet, 1, 1), Cell(src.scope.currentSheet, 2, 1);
            BuildRange(src.scope, "", Rect(1, 1, rows, 1), State(3, {}, [], 0))
            == if rows == 1 then Done(Reference(first), State(3, {first}, [], 0))
            else Done(Range(2, 1, [first, second]), State(3, {first, second}, [], 0))
  {
    hide RectCells;
    var sheet := src.scope.currentSheet;
    var first, second := Cell(sheet, 1, 1), Cell(sheet, 2, 1);
    ColumnCells(sheet, rows);
    assert (set c | c in [first]) == {first} && (set c | c in [first, second]) == {first, second};
  }

  lemma ColumnCells(sheet: string, rows: int)
    requires 1 <= rows <= 2
    ensures RectCells(sheet, Rect(1, 1, rows, 1)) == if rows == 1 then [Cell(sheet, 1, 1)] else [Cell(sheet, 1, 1), Cell(sheet, 2, 1)]
  {
    hide RectCells;
    RectCellsExact(sheet, Rect(1, 1, rows, 1), Cell(sheet, 1, 1));
    RectCellAt(sheet, Rect(1, 1, rows, 1), 0, 0);
    if rows == 2 { RectCellAt(sheet, Rect(1, 1, rows, 1), 1, 0); }
  }

  lemma ColumnA()
    ensures ParseColumn("A") == Some(1) && ParseCell("A") == None
  {
    assert ColumnNumber("A") == 1 by { assert "A"[..0] == "" && ColumnNumber("") == 0; }
    assert LetterCount("A") == 1 by { assert "A"[1..] == ""; }
  }

  // The condition on extents is needed: A:A read against a sheet with a value in
  // A1 alone depends on A1 alone, and a value appearing in A2 changes its result.
  lemma OpenReferenceGrows(scope: Scope, ops: Ops, eb: string -> Extent, ea: string -> Extent)
    requires var a1, a2 := Cell(scope.currentSheet, 1, 1), Cell(scope.currentSheet, 2, 1);
             Measures(eb, {a1}) && Measures(ea, {a1, a2})
    ensures var a1, a2 := Cell(scope.currentSheet, 1, 1), Cell(scope.currentSheet, 2, 1);
            var before: Sheet, after: Sheet := map[a1 := Number(1.0)], map[a1 := Number(1.0), a2 := Number(3.0)];
            var a, b := Reading(WHOLE_COLUMN, scope, eb), Reading(WHOLE_COLUMN, scope, ea);
            && before.Keys == {a1} && after.Keys == {a1, a2}
            && a.Formula().node.Some? && b.Formula().node.Some?
            && Steady(a.Formula().node.value) && Steady(b.Formula().node.value)
            && (forall c :: c in a.Formula().st.deps ==> ReadCell(before, c) == ReadCell(after, c))
            && Result(a, ops, before, 1) == Ok(Number(1.0))
            && Result(b, ops, after, 1) == Ok(Array(2, 1, [Number(1.0), Number(3.0)]))
  {
    hide Source.Formula;
    var a1, a2 := Cell(scope.currentSheet, 1, 1), Cell(scope.currentSheet, 2, 1);
    assert Holds(eb(scope.currentSheet), {a1}, scope.currentSheet) && Holds(ea(scope.currentSheet), {a1, a2}, scope.currentSheet);
    MeasuredOnce(eb(scope.currentSheet), Extent(1, 1), {a1}, scope.currentSheet);
    assert a2 in {a1, a2} && a1 in {a1, a2};
    MeasuredOnce(ea(scope.currentSheet), Extent(2, 1), {a1, a2}, scope.currentSheet);
    WholeColumnIs(scope, eb);
    WholeColumnIs(scope, ea);
    var after: Sheet := map[a1 := Number(1.0), a2 := Number(3.0)];
    var keys := [a1, a2];
    assert keys[1..] == [a2] && keys[1..][1..] == [];
    assert ReadCells(after, [a2]) == Ok([Number(3.0)]) by { assert [a2][1..] == [] && [Number(3.0)] + [] == [Number(3.0)]; }
    assert ReadCells(after, keys) == Ok([Number(1.0), Number(3.0)]) by { assert [Number(1.0)] + [Number(3.0)] == [Number(1.0), Number(3.0)]; }
  }

  // The formula OFFSET(A1,A1,0).
  function OffsetByItself(): seq<Token> { OffsetOf(AddressText(1, 1)) }

  function OffsetOf(name: string): seq<Token> {
    [TName("OFFSET"), TLeft, TName(name), TComma, TName(name), TComma, TWhole(0), TRight, TEnd]
  }

  lemma OffsetIs(scope: Scope)
    requires scope.canonical("OFFSET") == "OFFSET"
    ensures var a1 := Cell(scope.currentSheet, 1, 1);
            Source(OffsetByItself(), scope).Formula()
            == Done(Dynamic("OFFSET", [Reference(a1), Reference(a1), Literal(Number(0.0))], a1.sheet, 1, 1), State(8, {a1}, [], 0))
  {
    hide Source.Formula, Source.Expression, Source.Operators, Source.Arguments, Source.Primary, Source.Named, ReferenceFunction, RefsAll;
    var src, a1 := Source(OffsetByItself(), scope), Cell(scope.currentSheet, 1, 1);
    var args := [Reference(a1), Reference(a1), Literal(Number(0.0))];
    var s, end := State(0, {}, [], 0), State(8, {a1}, [], 0);
    OffsetArguments(src, AddressText(1, 1));
    OffsetNode(scope, a1, end);
    var whole := Done(Dynamic("OFFSET", args, a1.sheet, 1, 1), end);
    OffsetPrefix(src, AddressText(1, 1), args, whole);
    Printer.StepExpression(src, 0, s, whole);
    Printer.StopOperators(src, whole.node.value, 0, end);
    EndsThere(src, whole);
  }

  lemma EndsThere(src: Source, p: Parse)
    requires src.Valid() && p.node.Some? && src.Expression(0, State(0, {}, [], 0)) == p && src.Ready(p.st) && src.Tok(p.st).TEnd?
    ensures src.Formula() == p
  {
    hide Source.Expression;
  }

  lemma OffsetPrefix(src: Source, name: string, args: seq<Node>, whole: Parse)
    requires src.tokens == OffsetOf(name) && src.scope.canonical("OFFSET") == "OFFSET"
    requires RefsAll([]) == {} && src.Arguments([], State(2, {}, [], 0)) == ParseList(Some(args), State(7, whole.st.deps, [], 0))
    requires RefsAll(args) <= whole.st.deps && whole == ReferenceFunction(src.scope, "OFFSET", args, State(8, whole.st.deps, [], 0))
    ensures src.Prefix(State(0, {}, [], 0)) == whole
  {
    hide Source.Expression, Source.Operators, Source.Arguments, ReferenceFunction, RefsAll, AddressText,
      Source.LetSteps, Source.LambdaParts, Source.Callable, Source.ArrayRows, Source.Qualified, Source.PlainName;
    var s := State(0, {}, [], 0);
    assert src.Primary(s) == src.Named("OFFSET", State(1, {}, [], 0));
  }

  lemma OffsetNode(scope: Scope, a1: Cell, st: State)
    requires a1 == Cell(scope.currentSheet, 1, 1) && a1 in st.deps
    ensures var args := [Reference(a1), Reference(a1), Literal(Number(0.0))];
            && RefsAll([]) == {} && RefsAll(args) == {a1}
            && ReferenceFunction(scope, "OFFSET", args, st) == Done(Dynamic("OFFSET", args, a1.sheet, 1, 1), st)
  {
    hide RefsAll;
    var args := [Reference(a1), Reference(a1), Literal(Number(0.0))];
    OffsetRefs(a1);
    assert args[1..][0] == Reference(a1);
  }

  lemma OffsetRefs(a1: Cell)
    ensures var reference, zero := Reference(a1), Literal(Number(0.0));
            RefsAll([]) == {} && RefsAll([reference]) == RefsAll([reference, reference]) == RefsAll([reference, reference, zero]) == {a1}
  {
    hide RefsAll;
    var reference, zero := Reference(a1), Literal(Number(0.0));
    RefsAllNone();
    RefsAllAppend([], reference);
    RefsAllAppend([reference], reference);
    RefsAllAppend([reference, reference], zero);
    assert [] + [reference] == [reference] && [reference] + [reference] == [reference, reference]
           && [reference, reference] + [zero] == [reference, reference, zero];
  }

  lemma OffsetArguments(src: Source, name: string)
    requires src.tokens == OffsetOf(name) && IsA1(name)
    ensures var a1 := Cell(src.scope.currentSheet, 1, 1);
            RefsAll([]) == {}
            && src.Arguments([], State(2, {}, [], 0))
               == ParseList(Some([Reference(a1), Reference(a1), Literal(Number(0.0))]), State(7, {a1}, [], 0))
  {
    hide Source.Expression, Source.Arguments, RefsAll, IsA1;
    var a1 := Cell(src.scope.currentSheet, 1, 1);
    var reference, zero := Reference(a1), Literal(Number(0.0));
    OffsetRefs(a1);
    OneArgument(src, reference, TName(name), State(2, {}, [], 0));
    OneArgument(src, reference, TName(name), State(4, {a1}, [], 0));
    OneArgument(src, zero, TWhole(0), State(6, {a1}, [], 0));
    Collect(src, [], reference, State(2, {}, [], 0), State(3, {a1}, [], 0));
    Collect(src, [reference], reference, State(4, {a1}, [], 0), State(5, {a1}, [], 0));
    Collect(src, [reference, reference], zero, State(6, {a1}, [], 0), State(7, {a1}, [], 0));
    assert [] + [reference] == [reference] && [reference] + [reference] == [reference, reference]
           && [reference, reference] + [zero] == [reference, reference, zero];
  }

  lemma Collect(src: Source, done: seq<Node>, a: Node, s: State, after: State)
    requires src.Valid() && src.Ready(s) && src.Ready(after) && RefsAll(done) <= s.deps && s.deps + Refs(a) <= after.deps
    requires a != Literal(Omitted) && Printer.Starts(src.Tok(s)) && src.Expression(0, s) == Done(a, after)
    ensures RefsAll(done + [a]) <= after.deps
    ensures src.Arguments(done, s)
         == if IsSeparator(src.Tok(after)) then src.Arguments(done + [a], Advance(after))
            else ParseList(Some(done + [a]), after)
  {
    RefsAllAppend(done, a);
    Printer.StepArgument(src, done, s, a, after);
  }

  predicate IsA1(name: string) { name == AddressText(1, 1) }

  lemma OneArgument(src: Source, a: Node, token: Token, s: State)
    requires src.Valid() && s.binds == [] && s.pos + 1 < |src.tokens| && src.tokens[s.pos] == token
    requires var next := src.tokens[s.pos + 1]; IsSeparator(next) || next.TRight?
    requires || (a == Reference(Cell(src.scope.currentSheet, 1, 1)) && token.TName? && IsA1(token.name))
             || (a == Literal(Number(0.0)) && token == TWhole(0))
    ensures Printer.Starts(token) && src.Expression(0, s) == Done(a, s.(pos := s.pos + 1, deps := s.deps + Refs(a)))
  {
    hide Source.Expression, AddressText;
    var sheetName: string -> string := x => x;
    assert Printer.PrintArg(src.scope, sheetName, a) == [token];
    assert src.tokens[s.pos..s.pos + 1] == [token];
    assert a in [a];
    Printer.ArgumentBack(src, sheetName, Call("", [a]), a, s);
  }

  // OFFSET(A1,A1,0) depends on A1 alone as far as the parser can tell, and reads
  // A3 when A1 holds 2.
  lemma DynamicReferenceEscapes(scope: Scope, ops: Ops)
    requires scope.canonical("OFFSET") == "OFFSET" && ops.whole(Number(2.0)) == Some(2) && ops.whole(Number(0.0)) == Some(0)
    ensures var src, a1, a3 := Source(OffsetByItself(), scope), Cell(scope.currentSheet, 1, 1), Cell(scope.currentSheet, 3, 1);
            var before: Sheet, after: Sheet := map[a1 := Number(2.0), a3 := Number(7.0)], map[a1 := Number(2.0), a3 := Number(8.0)];
            && src.Valid() && src.Formula().node.Some? && src.Formula().st.deps == {a1}
            && ReadCell(before, a1) == ReadCell(after, a1) && before.Keys == after.Keys
            && Result(src, ops, before, 2) == Ok(Number(7.0))
            && Result(src, ops, after, 2) == Ok(Number(8.0))
  {
    hide Source.Formula, Machine.Eval;
    var a1, a3 := Cell(scope.currentSheet, 1, 1), Cell(scope.currentSheet, 3, 1);
    OffsetIs(scope);
    OffsetReads(ops, a1, a3, map[a1 := Number(2.0), a3 := Number(7.0)]);
    OffsetReads(ops, a1, a3, map[a1 := Number(2.0), a3 := Number(8.0)]);
  }

  lemma OffsetReads(ops: Ops, a1: Cell, a3: Cell, cells: Sheet)
    requires ops.whole(Number(2.0)) == Some(2) && ops.whole(Number(0.0)) == Some(0)
    requires a1 == Cell(a1.sheet, 1, 1) && a3 == Cell(a1.sheet, 3, 1)
    requires ReadCell(cells, a1) == Number(2.0) && a3 in cells && cells[a3].Number?
    ensures Machine(cells, ops).Eval(2, Dynamic("OFFSET", [Reference(a1), Reference(a1), Literal(Number(0.0))], a1.sheet, 1, 1), map[])
         == Ok(cells[a3])
  {
    hide Machine.EvalList, Machine.ReadTarget, Machine.Target;
    var m := Machine(cells, ops);
    var args := [Reference(a1), Reference(a1), Literal(Number(0.0))];
    var vs := [Number(2.0), Number(0.0)];
    assert Asked("OFFSET", args) == [Reference(a1), Literal(Number(0.0))];
    OffsetNumbers(m, a1);
    TwoDown(m, a1.sheet, vs);
    ReadOne(m, a3);
  }

  lemma OffsetNumbers(m: Machine, a1: Cell)
    requires m.ops.whole(Number(2.0)) == Some(2) && m.ops.whole(Number(0.0)) == Some(0) && ReadCell(m.cells, a1) == Number(2.0)
    ensures m.EvalList(1, Wholes, [Reference(a1), Literal(Number(0.0))], map[]) == Ok([Number(2.0), Number(0.0)])
  {
    var reference, zero := Reference(a1), Literal(Number(0.0));
    assert [reference, zero][1..] == [zero] && [zero][1..] == [];
    assert m.EvalList(1, Wholes, [zero], map[]) == Ok([Number(0.0)]) by { assert [Number(0.0)] + [] == [Number(0.0)]; }
    assert [Number(2.0)] + [Number(0.0)] == [Number(2.0), Number(0.0)];
  }

  lemma TwoDown(m: Machine, sheet: string, vs: seq<Value>)
    requires vs == [Number(2.0), Number(0.0)] && m.ops.whole(Number(2.0)) == Some(2) && m.ops.whole(Number(0.0)) == Some(0)
    ensures m.Target("OFFSET", vs, sheet, 1, 1) == Ok((sheet, Rect(3, 1, 3, 1)))
  {
    assert m.Offsets(vs) == [Given(2), Given(0)];
  }

  lemma ReadOne(m: Machine, c: Cell)
    requires c in m.cells && m.cells[c].Number?
    ensures m.ReadTarget(Ok((c.sheet, Rect(c.row, c.column, c.row, c.column)))) == Ok(m.cells[c])
  {
    var rect := Rect(c.row, c.column, c.row, c.column);
    RectCellsExact(c.sheet, rect, c);
    RectCellAt(c.sheet, rect, 0, 0);
    assert RectCells(c.sheet, rect) == [c];
    assert ReadCells(m.cells, [c]) == Ok([m.cells[c]]) by { assert [c][1..] == [] && [m.cells[c]] + [] == [m.cells[c]]; }
    assert CellCount(rect) == 1;
  }
}
