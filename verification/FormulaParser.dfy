/**
  The parser as the program runs it: a cursor, a dependency set and a stack of
  names in scope, all moved in place.  Each method leaves the parser in exactly
  the state `Grammar` gives and returns exactly its tree.
*/
module FormulaParser {
  import opened CellAddress
  import opened FormulaSyntax
  import opened Grammar

  // One round of the loop over an array literal.
  lemma ArrayStep(src: Source, rows: seq<seq<Node>>, row: seq<Node>, s: State)
    requires src.Valid() && src.Ready(s)
    requires RefsAll(row) <= s.deps && forall r :: r in rows ==> RefsAll(r) <= s.deps
    ensures src.Tok(s).TClose? ==> src.ArrayRows(rows, row, s) == src.ArrayEnd(rows, Advance(s))
    ensures !src.Tok(s).TClose? ==>
              var item := src.Expression(0, s);
              if item.node.None? then src.ArrayRows(rows, row, s) == item
              else
                var row' := row + [item.node.value];
                && RefsAll(row') <= item.st.deps
                && src.ArrayRows(rows, row, s)
                   == match src.Tok(item.st)
                      case TComma => src.ArrayRows(rows, row', Advance(item.st))
                      case TSemicolon => src.ArrayRows(rows + [row'], [], Advance(item.st))
                      case TClose => src.ArrayEnd(rows + [row'], Advance(item.st))
                      case _ => Fail(item.st)
  {
    hide Source.Expression, Source.ArrayEnd, RefsAll;
    RefsAllNone();
    if !src.Tok(s).TClose? && src.Expression(0, s).node.Some? {
      RefsAllAppend(row, src.Expression(0, s).node.value);
    }
  }

  class Parser {
    const src: Source
    var position: nat
    var dependencies: set<Cell>
    var bindings: seq<Binding>
    var frames: nat

    function Now(): State
      reads this
    {
      State(position, dependencies, bindings, frames)
    }

    ghost predicate OnToken()
      reads this
    {
      src.Valid() && src.Ready(Now())
    }

    constructor (tokens: seq<Token>, scope: Scope)
      ensures src == Source(tokens, scope) && Now() == State(0, {}, [], 0)
    {
      src := Source(tokens, scope);
      position, dependencies, bindings, frames := 0, {}, [], 0;
    }

    function Current(): Token
      reads this
      requires OnToken()
    {
      src.tokens[position]
    }

    // The whole formula.  On every token list that ends in TEnd the parser
    // stops, stays inside the list, and leaves no name in scope.
    method ParseFormula() returns (node: Option<Node>)
      requires src.Valid() && Now() == State(0, {}, [], 0)
      modifies this
      ensures Parse(node, Now()) == src.Formula()
      ensures bindings == [] && position <= |src.tokens|
      ensures node.Some? ==> Refs(node.value) <= dependencies
    {
      node := Expression(0);
      if node.Some? && !Current().TEnd? { node := None; }
    }

    method Expression(minimum: int) returns (node: Option<Node>)
      requires OnToken()
      modifies this
      ensures Parse(node, Now()) == src.Expression(minimum, old(Now()))
      decreases |src.tokens| - position, 3
    {
      hide Source.Prefix;
      node := Prefix();
      if node.None? { return; }
      while Current().TOp?
        invariant OnToken() && node.Some? && Refs(node.value) <= dependencies
        invariant old(position) < position
        invariant src.Operators(node.value, minimum, Now()) == src.Expression(minimum, old(Now()))
        decreases |src.tokens| - position
      {
        var op := Current().op;
        if Precedence(op) < minimum { break; }
        position := position + 1;
        var right := Expression(RightMinimum(op));
        if right.None? { return None; }
        node := Some(Binary(op, node.value, right.value));
      }
    }

    method Prefix() returns (node: Option<Node>)
      requires OnToken()
      modifies this
      ensures Parse(node, Now()) == src.Prefix(old(Now()))
      decreases |src.tokens| - position, 2
    {
      hide Source.Primary;
      var current := Current();
      if current == TOp("+") || current == TOp("-") {
        position := position + 1;
        node := Prefix();
        if node.Some? { node := Some(Unary(current.op, node.value)); }
      } else {
        node := Primary();
      }
    }

    method Primary() returns (node: Option<Node>)
      requires OnToken()
      modifies this
      ensures Parse(node, Now()) == src.Primary(old(Now()))
      decreases |src.tokens| - position, 1
    {
      hide Source.Expression, Source.ArrayRows, Source.Qualified, Source.Named, Source.PlainName, Source.RowBand;
      var current := Current();
      position := position + 1;
      match current
      case TWhole(n) =>
        if Current().TColon? && IsNumber(src.tokens[position + 1]) && 1 <= n <= MAX_ROWS {
          node := RowBand("", n);
        } else {
          node := Some(Literal(Number(n as real)));
        }
      case TDecimal(r) => node := Some(Literal(Number(r)));
      case TText(text) => node := Some(Literal(Str(text)));
      case TError(code) => node := Some(ErrorLiteral(code));
      case TLeft =>
        node := Expression(0);
        node := Close(node);
      case TOpen => node := ArrayLiteral();
      case TQuoted(sheet) =>
        if Current().TBang? {
          position := position + 1;
          node := Qualified(sheet);
        } else {
          node := None;
        }
      case TName(name) =>
        if Current().TBang? {
          position := position + 1;
          node := Qualified(name);
        } else if Current().TLeft? {
          node := Named(src.scope.canonical(name));
        } else {
          node := PlainName(name);
        }
      case _ => node := None;
    }

    method Close(inner: Option<Node>) returns (node: Option<Node>)
      requires src.Valid() && (inner.Some? ==> OnToken())
      modifies `position
      ensures Parse(node, Now()) == src.Close(Parse(inner, old(Now())))
    {
      if inner.None? || !Current().TRight? { return None; }
      position := position + 1;
      node := inner;
    }

    // -------- references --------

    method AddRow(sheet: string, row: int, first: int, last: int) returns (cells: seq<Cell>)
      modifies `dependencies
      ensures cells == RowCells(sheet, row, first, last)
      ensures dependencies == old(dependencies) + set c | c in cells
    {
      cells := [];
      var column := first;
      while column <= last
        invariant cells + RowCells(sheet, row, column, last) == RowCells(sheet, row, first, last)
        invariant dependencies == old(dependencies) + set c | c in cells
      {
        var key := Cell(sheet, row, column);
        assert cells + ([key] + RowCells(sheet, row, column + 1, last))
            == (cells + [key]) + RowCells(sheet, row, column + 1, last);
        dependencies := dependencies + {key};
        cells := cells + [key];
        column := column + 1;
      }
    }

    method AddRect(sheet: string, rect: Rect) returns (cells: seq<Cell>)
      requires rect.firstRow <= rect.lastRow
      modifies `dependencies
      ensures cells == RectCells(sheet, rect)
      ensures dependencies == old(dependencies) + set c | c in cells
    {
      hide RowCells;
      cells := [];
      var row := rect.firstRow;
      while row <= rect.lastRow
        invariant rect.firstRow <= row <= rect.lastRow + 1
        invariant cells + RectCells(sheet, rect.(firstRow := row)) == RectCells(sheet, rect)
        invariant dependencies == old(dependencies) + set c | c in cells
      {
        var more := AddRow(sheet, row, rect.firstColumn, rect.lastColumn);
        ghost var rest := RectCells(sheet, rect.(firstRow := row + 1));
        assert cells + (more + rest) == (cells + more) + rest;
        cells := cells + more;
        row := row + 1;
      }
    }

    method BuildRangeAt(sheet: string, rect: Rect) returns (node: Option<Node>)
      requires Proper(rect)
      modifies `dependencies
      ensures Parse(node, Now()) == Grammar.BuildRangeAt(sheet, rect, old(Now()))
    {
      hide RectCells;
      if CellCount(rect) > MAX_RANGE_CELLS { return None; }
      var cells := AddRect(sheet, rect);
      RectCellsExact(sheet, rect, Cell(sheet, rect.firstRow, rect.firstColumn));
      if CellCount(rect) == 1 { return Some(Reference(cells[0])); }
      node := Some(Range(rect.lastRow - rect.firstRow + 1, rect.lastColumn - rect.firstColumn + 1, cells));
    }

    method BuildRange(qualifier: string, rect: Rect) returns (node: Option<Node>)
      requires Proper(rect)
      modifies `dependencies
      ensures Parse(node, Now()) == Grammar.BuildRange(src.scope, qualifier, rect, old(Now()))
    {
      var sheet := SheetFor(src.scope, qualifier);
      if sheet.None? { return None; }
      node := BuildRangeAt(sheet.value, rect);
    }

    method CellReference(qualifier: string, start: string) returns (node: Option<Node>)
      requires OnToken()
      modifies this
      ensures Parse(node, Now()) == src.CellReference(qualifier, start, old(Now()))
    {
      var cell := ParseCell(start);
      if cell.None? && ParseColumn(start).None? { return None; }
      if !Current().TColon? {
        var sheet := SheetFor(src.scope, qualifier);
        if cell.None? || sheet.None? { return None; }
        var key := Cell(sheet.value, cell.value.0, cell.value.1);
        dependencies := dependencies + {key};
        return Some(Reference(key));
      }
      position := position + 1;
      var end := Current();
      if !end.TName? { return None; }
      position := position + 1;
      var rect := RangeRect(start, end.name, ExtentFor(src.scope, qualifier));
      if rect.None? { return None; }
      node := BuildRange(qualifier, rect.value);
    }

    method RowBand(qualifier: string, row: int) returns (node: Option<Node>)
      requires OnToken() && Current().TColon?
      modifies this
      ensures Parse(node, Now()) == src.RowBand(qualifier, row, old(Now()))
    {
      position := position + 1;
      var end := Current();
      if !IsNumber(end) { return None; }
      position := position + 1;
      var last := AsRow(end);
      if last.None? { return None; }
      var first, final := row, last.value;
      if final < first { first, final := final, first; }
      node := BuildRange(qualifier, Rect(first, 1, final, ExtentFor(src.scope, qualifier).columns));
    }

    method Qualified(qualifier: string) returns (node: Option<Node>)
      requires OnToken()
      modifies this
      ensures Parse(node, Now()) == src.Qualified(qualifier, old(Now()))
    {
      var start := Current();
      if IsNumber(start) && src.tokens[position + 1].TColon? {
        var row := AsRow(start);
        if row.None? { return None; }
        position := position + 1;
        node := RowBand(qualifier, row.value);
      } else if !start.TName? {
        node := None;
      } else {
        position := position + 1;
        node := CellReference(qualifier, start.name);
      }
    }

    // The innermost binding of a name, searched from the inside out.
    method LookupBinding(name: string) returns (node: Option<Node>)
      ensures node == Lookup(bindings, name)
    {
      var index := |bindings|;
      assert bindings[..index] == bindings;
      while index > 0
        invariant 0 <= index <= |bindings|
        invariant Lookup(bindings[..index], name) == Lookup(bindings, name)
      {
        assert bindings[..index][..index - 1] == bindings[..index - 1];
        index := index - 1;
        if bindings[index].name == name {
          return Some(Bound(bindings[index].frame, bindings[index].index));
        }
      }
      node := None;
    }

    method PlainName(name: string) returns (node: Option<Node>)
      requires OnToken()
      modifies this
      ensures Parse(node, Now()) == src.PlainName(name, old(Now()))
    {
      if name == "TRUE" { return Some(Literal(Boolean(true))); }
      if name == "FALSE" { return Some(Literal(Boolean(false))); }
      if ParseColumn(name).Some? && Current().TColon? {
        node := CellReference("", name);
        return;
      }
      var bound := LookupBinding(name);
      if bound.Some? { return bound; }
      if ParseCell(name).None? {
        if src.scope.callable(name) { return Some(Literal(Function(src.scope.canonical(name)))); }
        var target := src.scope.namedRange(name);
        if target.None? || !Proper(target.value.1) { return None; }
        node := BuildRangeAt(target.value.0, target.value.1);
      } else {
        node := CellReference("", name);
      }
    }

    // -------- calls --------

    method Named(name: string) returns (node: Option<Node>)
      requires OnToken() && Current().TLeft?
      modifies this
      ensures Parse(node, Now()) == src.Named(name, old(Now()))
      decreases |src.tokens| - position, 1
    {
      hide Source.Arguments, Source.LetSteps, Source.LambdaParts, Source.Callable, Source.Finish;
      position := position + 1;
      if name == "LET" {
        node := ParseLet();
      } else if name == "LAMBDA" {
        node := ParseLambda();
        if node.Some? { node := Callable(node.value); }
      } else {
        var bound := LookupBinding(name);
        if bound.Some? {
          position := position - 1;
          node := Callable(bound.value);
        } else {
          var args := Some([]);
          if !Current().TRight? { args := Arguments(); }
          if args.None? || !Current().TRight? { return None; }
          position := position + 1;
          node := Finish(name, args.value);
        }
      }
    }

    method Finish(name: string, args: seq<Node>) returns (node: Option<Node>)
      requires RefsAll(args) <= dependencies
      modifies `dependencies
      ensures Parse(node, Now()) == src.Finish(name, args, old(Now()))
    {
      if IsReferenceFunction(name) {
        node := ReferenceFunction(name, args);
      } else if name == "TRUE" || name == "FALSE" {
        node := Some(Literal(Boolean(name == "TRUE")));
      } else {
        node := Some(Call(name, args));
      }
    }

    method ReferenceFunction(name: string, args: seq<Node>) returns (node: Option<Node>)
      requires IsReferenceFunction(name) && RefsAll(args) <= dependencies
      modifies `dependencies
      ensures Parse(node, Now()) == Grammar.ReferenceFunction(src.scope, name, args, old(Now()))
    {
      if name == "OFFSET" {
        if |args| < 3 || |args| > 5 { return None; }
        var place := NodeReference(args[0]);
        if place.None? { return None; }
        var offsets := ConstantOffsets(src.scope, args[1..]);
        if offsets.None? {
          return Some(Dynamic(name, args, place.value.sheet, place.value.row, place.value.column));
        }
        var rect := OffsetRect(place.value, offsets.value);
        if rect.None? { return None; }
        node := BuildRangeAt(place.value.sheet, rect.value);
      } else if name == "INDIRECT" {
        if |args| < 1 || |args| > 2 { return None; }
        if !args[0].Literal? { return Some(Dynamic(name, args, src.scope.currentSheet, 0, 0)); }
        var target := src.scope.textRange(args[0].value);
        if target.None? || !Proper(target.value.1) { return None; }
        node := BuildRange(target.value.0, target.value.1);
      } else {
        var row, column := 0, 0;
        if args == [] {
          if src.scope.anchor.None? { return None; }
          row, column := src.scope.anchor.value.0, src.scope.anchor.value.1;
        } else {
          if |args| > 1 { return None; }
          var place := NodeReference(args[0]);
          if place.None? { return None; }
          row, column := place.value.row, place.value.column;
        }
        node := Some(Literal(Number((if name == "ROW" then row else column) as real)));
      }
    }

    // The argument loop of an ordinary call.
    method Arguments() returns (args: Option<seq<Node>>)
      requires OnToken()
      modifies this
      ensures ParseList(args, Now()) == src.Arguments([], old(Now()))
      decreases |src.tokens| - position, 4
    {
      hide Source.Expression;
      var done: seq<Node> := [];
      while true
        invariant OnToken() && RefsAll(done) <= dependencies
        invariant old(position) <= position
        invariant src.Arguments(done, Now()) == src.Arguments([], old(Now()))
        decreases |src.tokens| - position
      {
        RefsAllAppend(done, Literal(Omitted));
        if IsSeparator(Current()) {
          done := done + [Literal(Omitted)];
          position := position + 1;
        } else if Current().TRight? {
          return Some(done + [Literal(Omitted)]);
        } else {
          var argument := Expression(0);
          if argument.None? { return None; }
          RefsAllAppend(done, argument.value);
          done := done + [argument.value];
          if !IsSeparator(Current()) { return Some(done); }
          position := position + 1;
        }
      }
    }

    // The argument loop of a called LAMBDA.
    method Operands() returns (args: Option<seq<Node>>)
      requires OnToken()
      modifies this
      ensures ParseList(args, Now()) == src.Operands([], old(Now()))
      decreases |src.tokens| - position, 4
    {
      hide Source.Expression;
      var done: seq<Node> := [];
      while true
        invariant OnToken() && RefsAll(done) <= dependencies
        invariant old(position) <= position
        invariant src.Operands(done, Now()) == src.Operands([], old(Now()))
        decreases |src.tokens| - position
      {
        var argument := Expression(0);
        if argument.None? { return None; }
        RefsAllAppend(done, argument.value);
        done := done + [argument.value];
        if !IsSeparator(Current()) { return Some(done); }
        position := position + 1;
      }
    }

    method Callable(target: Node) returns (node: Option<Node>)
      requires OnToken() && Refs(target) <= dependencies
      modifies this
      ensures Parse(node, Now()) == src.Callable(target, old(Now()))
      decreases |src.tokens| - position, 0
    {
      hide Source.Operands;
      if !Current().TLeft? { return Some(target); }
      position := position + 1;
      var args := Some([]);
      if !Current().TRight? { args := Operands(); }
      if args.None? || !Current().TRight? { return None; }
      position := position + 1;
      node := Some(Apply(target, args.value));
    }

    // LET.  Whatever happens inside, the names it brought in are gone at the end.
    method ParseLet() returns (node: Option<Node>)
      requires OnToken()
      modifies this
      ensures var p := src.LetSteps(old(frames), [], old(Now()).(unused := old(frames) + 1));
              Parse(node, Now()) == Parse(p.node, p.st.(binds := p.st.binds[..|old(bindings)|]))
      ensures bindings == old(bindings)
      decreases |src.tokens| - position, 6
    {
      var depth, frame := |bindings|, frames;
      frames := frames + 1;
      node := LetBody(frame);
      bindings := bindings[..depth];
    }

    method LetBinding(frame: nat, index: nat) returns (value: Option<Node>)
      requires OnToken()
      modifies this
      ensures Parse(value, Now()) == src.LetBinding(frame, index, old(Now()))
      decreases |src.tokens| - position, 4
    {
      hide Source.Expression;
      var name := Current();
      if !name.TName? || ParseCell(name.name).Some? { return None; }
      position := position + 1;
      if !IsSeparator(Current()) { return None; }
      position := position + 1;
      value := Expression(0);
      if value.None? { return; }
      bindings := bindings + [Binding(name.name, frame, index)];
      if !IsSeparator(Current()) { return None; }
      position := position + 1;
    }

    method LetBody(frame: nat) returns (node: Option<Node>)
      requires OnToken()
      modifies this
      ensures Parse(node, Now()) == src.LetSteps(frame, [], old(Now()))
      decreases |src.tokens| - position, 5
    {
      hide Source.Expression, Source.LetBinding;
      var values: seq<Node> := [];
      while true
        invariant OnToken() && RefsAll(values) <= dependencies
        invariant old(position) <= position
        invariant src.LetSteps(frame, values, Now()) == src.LetSteps(frame, [], old(Now()))
        decreases |src.tokens| - position
      {
        var value := LetBinding(frame, |values|);
        if value.None? { return None; }
        RefsAllAppend(values, value.value);
        values := values + [value.value];
        if src.StartsBindingName(Now()) { continue; }
        var body := Expression(0);
        body := Close(body);
        if body.None? { return None; }
        return Some(Let(frame, values, body.value));
      }
    }

    method ParseLambda() returns (node: Option<Node>)
      requires OnToken()
      modifies this
      ensures var p := src.LambdaParts(old(frames), 0, old(Now()).(unused := old(frames) + 1));
              Parse(node, Now()) == Parse(p.node, p.st.(binds := p.st.binds[..|old(bindings)|]))
      ensures bindings == old(bindings)
      decreases |src.tokens| - position, 6
    {
      var depth, frame := |bindings|, frames;
      frames := frames + 1;
      node := LambdaBody(frame);
      bindings := bindings[..depth];
    }

    method LambdaBody(frame: nat) returns (node: Option<Node>)
      requires OnToken()
      modifies this
      ensures Parse(node, Now()) == src.LambdaParts(frame, 0, old(Now()))
      decreases |src.tokens| - position, 4
    {
      hide Source.Expression;
      var arity := 0;
      while src.StartsBindingName(Now())
        invariant OnToken() && old(position) <= position
        invariant src.LambdaParts(frame, arity, Now()) == src.LambdaParts(frame, 0, old(Now()))
        decreases |src.tokens| - position
      {
        bindings := bindings + [Binding(Current().name, frame, arity)];
        arity := arity + 1;
        position := position + 2;
      }
      var body := Expression(0);
      body := Close(body);
      node := if body.None? then None else Some(Lambda(frame, arity, body.value));
    }

    method ArrayLiteral() returns (node: Option<Node>)
      requires OnToken()
      modifies this
      ensures Parse(node, Now()) == src.ArrayRows([], [], old(Now()))
      decreases |src.tokens| - position, 4
    {
      hide Source.Expression, Source.ArrayEnd, Source.ArrayRows, RefsAll;
      RefsAllNone();
      var rows: seq<seq<Node>>, row: seq<Node> := [], [];
      while true
        invariant OnToken() && RefsAll(row) <= dependencies && forall r :: r in rows ==> RefsAll(r) <= dependencies
        invariant old(position) <= position
        invariant src.ArrayRows(rows, row, Now()) == src.ArrayRows([], [], old(Now()))
        decreases |src.tokens| - position
      {
        ArrayStep(src, rows, row, Now());
        if Current().TClose? {
          position := position + 1;
          return src.ArrayEnd(rows, Now()).node;
        }
        var item := Expression(0);
        if item.None? { return None; }
        row := row + [item.value];
        match Current()
        case TComma => position := position + 1;
        case TSemicolon =>
          position := position + 1;
          rows, row := rows + [row], [];
        case TClose =>
          position := position + 1;
          return src.ArrayEnd(rows + [row], Now()).node;
        case _ => return None;
      }
    }
  }
}
