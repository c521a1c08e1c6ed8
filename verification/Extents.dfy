/**
  How far a sheet reaches is measured from the cells an evaluation is given, and
  open references such as A:A, A2:A and 2:5 run as far as the sheet reaches.  Two
  evaluations read a formula the same way when the extents agree on the sheets
  its open references name.
*/
module Extents {
  import opened CellAddress
  import opened FormulaSyntax
  import opened Grammar

  // -------- measuring --------

  // e is the least extent that holds the cells of the sheet.
  ghost predicate Holds(e: Extent, cells: set<Cell>, sheet: string) {
    && e.rows >= 0 && e.columns >= 0
    && (forall c :: c in cells && c.sheet == sheet ==> c.row <= e.rows && c.column <= e.columns)
    && (e.rows == 0 || exists c :: c in cells && c.sheet == sheet && c.row == e.rows)
    && (e.columns == 0 || exists c :: c in cells && c.sheet == sheet && c.column == e.columns)
  }

  ghost predicate Measures(e: string -> Extent, cells: set<Cell>) { forall sheet :: Holds(e(sheet), cells, sheet) }

  function ExtentIn(extents: map<string, Extent>, sheet: string): Extent {
    if sheet in extents then extents[sheet] else Extent(0, 0)
  }

  method MeasureExtent(cells: set<Cell>) returns (extents: map<string, Extent>)
    ensures Measures(sheet => ExtentIn(extents, sheet), cells)
  {
    extents := map[];
    var rest := cells;
    while rest != {}
      invariant rest <= cells && forall sheet :: Holds(ExtentIn(extents, sheet), cells - rest, sheet)
      decreases |rest|
    {
      var c :| c in rest;
      ghost var before := extents;
      var current := ExtentIn(extents, c.sheet);
      var grown := Grown(current, c);
      extents := extents[c.sheet := grown];
      forall sheet ensures Holds(ExtentIn(extents, sheet), cells - (rest - {c}), sheet) {
        assert cells - (rest - {c}) == (cells - rest) + {c};
        HoldsMore(ExtentIn(before, sheet), cells - rest, sheet, c);
      }
      rest := rest - {c};
    }
    assert cells - {} == cells;
  }

  function Grown(e: Extent, c: Cell): Extent {
    Extent(if c.row > e.rows then c.row else e.rows, if c.column > e.columns then c.column else e.columns)
  }

  lemma HoldsMore(e: Extent, cells: set<Cell>, sheet: string, c: Cell)
    requires Holds(e, cells, sheet)
    ensures Holds(if c.sheet == sheet then Grown(e, c) else e, cells + {c}, sheet)
  {
    assert c in cells + {c};
    assert forall x :: x in cells ==> x in cells + {c};
  }

  // A sheet has one extent.
  lemma MeasuredOnce(e: Extent, e': Extent, cells: set<Cell>, sheet: string)
    requires Holds(e, cells, sheet) && Holds(e', cells, sheet)
    ensures e == e'
  {
  }

  // -------- open references --------

  // The sheet qualifier before the name or number that ends just before i.
  function QualifierAt(tokens: seq<Token>, i: nat): string
    requires i <= |tokens|
  {
    if i >= 3 && tokens[i - 2].TBang? then
      (match tokens[i - 3]
       case TName(name) => name
       case TQuoted(sheet) => sheet
       case _ => "")
    else ""
  }

  // A colon followed by a bare column: the range ends where the rows do.
  predicate OpenColumn(tokens: seq<Token>, i: nat) {
    i + 1 < |tokens| && tokens[i].TColon? && tokens[i + 1].TName? && ParseCell(tokens[i + 1].name).None?
  }

  // A colon followed by a row number: the range ends where the columns do.
  predicate OpenRow(tokens: seq<Token>, i: nat) {
    i + 1 < |tokens| && tokens[i].TColon? && IsNumber(tokens[i + 1])
  }

  // The two readers differ in nothing but extents, and agree on those the open
  // references of the formula ask for.
  ghost predicate Twins(a: Source, b: Source) {
    && a.Valid() && a.tokens == b.tokens && b.scope == a.scope.(extentOf := b.scope.extentOf)
    && (forall i :: 0 <= i < |a.tokens| && OpenColumn(a.tokens, i) ==>
                      ExtentFor(a.scope, QualifierAt(a.tokens, i)).rows == ExtentFor(b.scope, QualifierAt(a.tokens, i)).rows)
    && (forall i :: 0 <= i < |a.tokens| && OpenRow(a.tokens, i) ==>
                      ExtentFor(a.scope, QualifierAt(a.tokens, i)).columns == ExtentFor(b.scope, QualifierAt(a.tokens, i)).columns)
  }

  // The cursor is not right behind a sheet qualifier.
  predicate Clear(a: Source, s: State) { a.Ready(s) && (s.pos == 0 || !a.tokens[s.pos - 1].TBang?) }

  lemma SameRect(start: string, end: string, e: Extent, e': Extent)
    requires e.rows >= 1 && e.columns >= 1 && e'.rows >= 1 && e'.columns >= 1
    requires ParseCell(end).None? ==> e.rows == e'.rows
    ensures RangeRect(start, end, e) == RangeRect(start, end, e')
  {
  }

  lemma SameSheetFor(a: Source, b: Source, qualifier: string)
    requires Twins(a, b)
    ensures SheetFor(a.scope, qualifier) == SheetFor(b.scope, qualifier)
  {
  }

  lemma SameCellReference(a: Source, b: Source, qualifier: string, start: string, s: State)
    requires Twins(a, b) && a.Ready(s) && qualifier == QualifierAt(a.tokens, s.pos)
    ensures a.CellReference(qualifier, start, s) == b.CellReference(qualifier, start, s)
  {
    SameSheetFor(a, b, qualifier);
    if a.Tok(s).TColon? {
      var s1 := Advance(s);
      if a.Tok(s1).TName? {
        SameRect(start, a.Tok(s1).name, ExtentFor(a.scope, qualifier), ExtentFor(b.scope, qualifier));
      }
    }
  }

  lemma SameRowBand(a: Source, b: Source, qualifier: string, row: int, s: State)
    requires Twins(a, b) && a.Ready(s) && a.Tok(s).TColon? && qualifier == QualifierAt(a.tokens, s.pos)
    ensures a.RowBand(qualifier, row, s) == b.RowBand(qualifier, row, s)
  {
    SameSheetFor(a, b, qualifier);
    assert IsNumber(a.Tok(Advance(s))) ==> OpenRow(a.tokens, s.pos);
  }

  lemma SameQualified(a: Source, b: Source, qualifier: string, s: State)
    requires Twins(a, b) && a.Ready(s) && s.pos >= 2 && a.tokens[s.pos - 1].TBang?
    requires a.tokens[s.pos - 2] == TName(qualifier) || a.tokens[s.pos - 2] == TQuoted(qualifier)
    ensures a.Qualified(qualifier, s) == b.Qualified(qualifier, s)
  {
    hide Source.CellReference, Source.RowBand;
    if IsNumber(a.Tok(s)) && a.tokens[s.pos + 1].TColon? {
      if AsRow(a.Tok(s)).Some? { SameRowBand(a, b, qualifier, AsRow(a.Tok(s)).value, Advance(s)); }
    } else if a.Tok(s).TName? {
      SameCellReference(a, b, qualifier, a.Tok(s).name, Advance(s));
    }
  }

  lemma SamePlainName(a: Source, b: Source, name: string, s: State)
    requires Twins(a, b) && a.Ready(s) && s.pos >= 1 && (s.pos == 1 || !a.tokens[s.pos - 2].TBang?)
    ensures a.PlainName(name, s) == b.PlainName(name, s)
  {
    hide Source.CellReference;
    SameCellReference(a, b, "", name, s);
  }

  lemma {:induction false} SameExpression(a: Source, b: Source, minimum: int, s: State)
    requires Twins(a, b) && Clear(a, s)
    ensures a.Expression(minimum, s) == b.Expression(minimum, s)
    decreases |a.tokens| - s.pos, 3
  {
    hide Source.Prefix, Source.Operators, Twins;
    TwinTokens(a, b);
    SamePrefix(a, b, s);
    var first := a.Prefix(s);
    if first.node.Some? { SameOperators(a, b, first.node.value, minimum, first.st); }
  }

  lemma TwinTokens(a: Source, b: Source)
    requires Twins(a, b)
    ensures a.Valid() && b.Valid() && a.tokens == b.tokens
  {
  }

  lemma {:induction false} SameOperators(a: Source, b: Source, left: Node, minimum: int, s: State)
    requires Twins(a, b) && a.Ready(s) && Refs(left) <= s.deps
    ensures a.Operators(left, minimum, s) == b.Operators(left, minimum, s)
    decreases |a.tokens| - s.pos, 4
  {
    hide Source.Expression, Twins, Refs;
    TwinTokens(a, b);
    if a.Tok(s).TOp? && Precedence(a.Tok(s).op) >= minimum {
      var op := a.Tok(s).op;
      SameExpression(a, b, RightMinimum(op), Advance(s));
      var right := a.Expression(RightMinimum(op), Advance(s));
      if right.node.Some? {
        BinaryRefs(op, left, right.node.value, right.st.deps);
        SameOperators(a, b, Binary(op, left, right.node.value), minimum, right.st);
      }
    }
  }

  lemma BinaryRefs(op: string, left: Node, right: Node, deps: set<Cell>)
    requires Refs(left) <= deps && Refs(right) <= deps
    ensures Refs(Binary(op, left, right)) <= deps
  {
  }

  lemma {:induction false} SamePrefix(a: Source, b: Source, s: State)
    requires Twins(a, b) && Clear(a, s)
    ensures a.Prefix(s) == b.Prefix(s)
    decreases |a.tokens| - s.pos, 2
  {
    hide Source.Primary, Twins;
    TwinTokens(a, b);
    if a.Tok(s) == TOp("+") || a.Tok(s) == TOp("-") {
      SamePrefix(a, b, Advance(s));
    } else {
      SamePrimary(a, b, s);
    }
  }

  lemma {:induction false} SamePrimary(a: Source, b: Source, s: State)
    requires Twins(a, b) && Clear(a, s)
    ensures a.Primary(s) == b.Primary(s)
    decreases |a.tokens| - s.pos, 1
  {
    hide Source.Expression, Source.ArrayRows, Source.Qualified, Source.Named, Source.PlainName, Source.RowBand;
    var s1 := Advance(s);
    match a.Tok(s)
    case TWhole(n) => if a.Tok(s1).TColon? { SameRowBand(a, b, "", n, s1); }
    case TLeft => SameExpression(a, b, 0, s1);
    case TOpen => SameArrayRows(a, b, [], [], s1);
    case TQuoted(sheet) => if a.Tok(s1).TBang? { SameQualified(a, b, sheet, Advance(s1)); }
    case TName(name) =>
      if a.Tok(s1).TBang? {
        SameQualified(a, b, name, Advance(s1));
      } else if a.Tok(s1).TLeft? {
        SameNamed(a, b, a.scope.canonical(name), s1);
      } else {
        SamePlainName(a, b, name, s1);
      }
    case _ =>
  }

  lemma {:induction false} SameNamed(a: Source, b: Source, name: string, s: State)
    requires Twins(a, b) && a.Ready(s) && a.Tok(s).TLeft?
    ensures a.Named(name, s) == b.Named(name, s)
    decreases |a.tokens| - s.pos, 1
  {
    hide Source.LetSteps, Source.LambdaParts, Source.Callable, Source.Arguments, Source.Finish;
    var s1 := Advance(s);
    RefsAllNone();
    if name == "LET" {
      SameLetSteps(a, b, s1.unused, [], s1.(unused := s1.unused + 1));
    } else if name == "LAMBDA" {
      var inner := s1.(unused := s1.unused + 1);
      SameLambdaParts(a, b, s1.unused, 0, inner);
      var p := a.LambdaParts(s1.unused, 0, inner);
      if p.node.Some? { SameCallable(a, b, p.node.value, p.st.(binds := p.st.binds[..|s.binds|])); }
    } else if Lookup(s.binds, name).Some? {
      BoundRefs(Lookup(s.binds, name).value);
      SameCallable(a, b, Lookup(s.binds, name).value, s);
    } else {
      if !a.Tok(s1).TRight? { SameArguments(a, b, [], s1); }
      var list := if a.Tok(s1).TRight? then ParseList(Some([]), s1) else a.Arguments([], s1);
      if list.nodes.Some? && a.Tok(list.st).TRight? { SameFinish(a, b, name, list.nodes.value, Advance(list.st)); }
    }
  }

  lemma BoundRefs(n: Node)
    requires n.Bound?
    ensures Refs(n) == {}
  {
  }

  lemma SameFinish(a: Source, b: Source, name: string, args: seq<Node>, s: State)
    requires Twins(a, b) && RefsAll(args) <= s.deps
    ensures a.Finish(name, args, s) == b.Finish(name, args, s)
  {
    if |args| > 0 { SameOffsets(a, b, args[1..]); }
  }

  lemma {:induction false} SameOffsets(a: Source, b: Source, args: seq<Node>)
    requires Twins(a, b)
    ensures ConstantOffsets(a.scope, args) == ConstantOffsets(b.scope, args)
  {
    if args != [] { SameOffsets(a, b, args[1..]); }
  }

  lemma {:induction false} SameArguments(a: Source, b: Source, done: seq<Node>, s: State)
    requires Twins(a, b) && Clear(a, s) && RefsAll(done) <= s.deps
    ensures a.Arguments(done, s) == b.Arguments(done, s)
    decreases |a.tokens| - s.pos, 4
  {
    hide Source.Expression, Twins, RefsAll;
    TwinTokens(a, b);
    RefsAllAppend(done, Literal(Omitted));
    OmittedRefs();
    if IsSeparator(a.Tok(s)) {
      SameArguments(a, b, done + [Literal(Omitted)], Advance(s));
    } else if !a.Tok(s).TRight? {
      SameExpression(a, b, 0, s);
      var p := a.Expression(0, s);
      if p.node.Some? && IsSeparator(a.Tok(p.st)) {
        RefsAllAppend(done, p.node.value);
        SameArguments(a, b, done + [p.node.value], Advance(p.st));
      }
    }
  }

  lemma OmittedRefs()
    ensures Refs(Literal(Omitted)) == {}
  {
  }

  lemma {:induction false} SameOperands(a: Source, b: Source, done: seq<Node>, s: State)
    requires Twins(a, b) && Clear(a, s) && RefsAll(done) <= s.deps
    ensures a.Operands(done, s) == b.Operands(done, s)
    decreases |a.tokens| - s.pos, 4
  {
    hide Source.Expression, Twins, RefsAll;
    TwinTokens(a, b);
    SameExpression(a, b, 0, s);
    var p := a.Expression(0, s);
    if p.node.Some? && IsSeparator(a.Tok(p.st)) {
      RefsAllAppend(done, p.node.value);
      SameOperands(a, b, done + [p.node.value], Advance(p.st));
    }
  }

  lemma {:induction false} SameCallable(a: Source, b: Source, target: Node, s: State)
    requires Twins(a, b) && a.Ready(s) && Refs(target) <= s.deps
    ensures a.Callable(target, s) == b.Callable(target, s)
    decreases |a.tokens| - s.pos, 0
  {
    hide Source.Operands, Twins, RefsAll;
    TwinTokens(a, b);
    RefsAllNone();
    if a.Tok(s).TLeft? && !a.Tok(Advance(s)).TRight? { SameOperands(a, b, [], Advance(s)); }
  }

  lemma {:induction false} SameLetBinding(a: Source, b: Source, frame: nat, index: nat, s: State)
    requires Twins(a, b) && a.Ready(s)
    ensures a.LetBinding(frame, index, s) == b.LetBinding(frame, index, s)
    decreases |a.tokens| - s.pos, 4
  {
    hide Source.Expression, Twins;
    TwinTokens(a, b);
    if a.Tok(s).TName? && ParseCell(a.Tok(s).name).None? && IsSeparator(a.Tok(Advance(s))) {
      SameExpression(a, b, 0, Advance(Advance(s)));
    }
  }

  lemma {:induction false} SameLetSteps(a: Source, b: Source, frame: nat, values: seq<Node>, s: State)
    requires Twins(a, b) && a.Ready(s) && RefsAll(values) <= s.deps
    ensures a.LetSteps(frame, values, s) == b.LetSteps(frame, values, s)
    decreases |a.tokens| - s.pos, 5
  {
    hide Source.Expression, Source.LetBinding, Twins, RefsAll;
    TwinTokens(a, b);
    SameLetBinding(a, b, frame, |values|, s);
    var value := a.LetBinding(frame, |values|, s);
    if value.node.Some? {
      RefsAllAppend(values, value.node.value);
      ClearAfterBinding(a, frame, |values|, s);
      if a.StartsBindingName(value.st) {
        SameLetSteps(a, b, frame, values + [value.node.value], value.st);
      } else {
        SameExpression(a, b, 0, value.st);
      }
    }
  }

  lemma ClearAfterBinding(a: Source, frame: nat, index: nat, s: State)
    requires a.Valid() && a.Ready(s) && a.LetBinding(frame, index, s).node.Some?
    ensures Clear(a, a.LetBinding(frame, index, s).st)
  {
    hide Source.Expression;
  }

  lemma {:induction false} SameLambdaParts(a: Source, b: Source, frame: nat, arity: nat, s: State)
    requires Twins(a, b) && Clear(a, s)
    ensures a.LambdaParts(frame, arity, s) == b.LambdaParts(frame, arity, s)
    decreases |a.tokens| - s.pos, 4
  {
    hide Source.Expression, Twins;
    TwinTokens(a, b);
    if a.StartsBindingName(s) {
      SameLambdaParts(a, b, frame, arity + 1, Advance(Advance(s)).(binds := s.binds + [Binding(a.Tok(s).name, frame, arity)]));
    } else {
      SameExpression(a, b, 0, s);
    }
  }

  lemma {:induction false} SameArrayRows(a: Source, b: Source, rows: seq<seq<Node>>, row: seq<Node>, s: State)
    requires Twins(a, b) && Clear(a, s)
    requires RefsAll(row) <= s.deps && forall r :: r in rows ==> RefsAll(r) <= s.deps
    ensures a.ArrayRows(rows, row, s) == b.ArrayRows(rows, row, s)
    decreases |a.tokens| - s.pos, 4
  {
    hide Source.Expression, Twins, RefsAll, Source.ArrayEnd;
    TwinTokens(a, b);
    RefsAllNone();
    if a.Tok(s).TClose? {
      SameArrayEnd(a, b, rows, Advance(s));
    } else {
      SameExpression(a, b, 0, s);
      var item := a.Expression(0, s);
      if item.node.Some? {
        RefsAllAppend(row, item.node.value);
        var row' := row + [item.node.value];
        match a.Tok(item.st)
        case TComma => SameArrayRows(a, b, rows, row', Advance(item.st));
        case TSemicolon => SameArrayRows(a, b, rows + [row'], [], Advance(item.st));
        case TClose => SameArrayEnd(a, b, rows + [row'], Advance(item.st));
        case _ =>
      }
    }
  }

  lemma SameArrayEnd(a: Source, b: Source, rows: seq<seq<Node>>, s: State)
    requires forall r :: r in rows ==> RefsAll(r) <= s.deps
    ensures a.ArrayEnd(rows, s) == b.ArrayEnd(rows, s)
  {
  }

  // So both read the formula as the same tree with the same dependencies.
  lemma SameFormula(a: Source, b: Source)
    requires Twins(a, b)
    ensures a.Formula() == b.Formula()
  {
    hide Source.Expression;
    SameExpression(a, b, 0, State(0, {}, [], 0));
  }
}
