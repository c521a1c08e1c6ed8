/**
  Which cells the written forms of a reference name: `A2:B9`, `A:C`, `2:5`, and
  `OFFSET` with numbers.
*/
module Areas {
  import opened CellAddress
  import opened FormulaSyntax
  import opened Grammar

  // -------- columns and rows in writing --------

  // The letters after these: the last one moves on, and Z carries.
  function NextLetters(s: string): string
    requires AllLetters(s)
  {
    if s == "" then "A"
    else if s[|s| - 1] == 'Z' then NextLetters(s[..|s| - 1]) + "A"
    else s[..|s| - 1] + [(s[|s| - 1] as int + 1) as char]
  }

  // Columns are written A, B, …, Z, AA, AB, … in turn.
  lemma {:induction false} ColumnsInTurn(column: nat)
    ensures ColumnLetters(0) == "" && ColumnLetters(column + 1) == NextLetters(ColumnLetters(column))
    decreases column
  {
    hide ColumnLetters, ColumnNumber, NextLetters;
    LettersAre(column + 1);
    NoLetters();
    if column > 0 {
      LettersAre(column);
      var d := (column - 1) % 26;
      NextLetterOf(ColumnLetters((column - 1) / 26), d);
      if d == 25 {
        LettersCarry(column);
        ColumnsInTurn((column - 1) / 26);
      } else {
        LettersStay(column);
      }
    }
  }

  lemma NoLetters()
    ensures ColumnLetters(0) == "" && NextLetters("") == "A"
  {
  }

  lemma LettersAre(column: nat)
    requires column > 0
    ensures ColumnLetters(column) == ColumnLetters((column - 1) / 26) + ['A' + ((column - 1) % 26) as char]
  {
  }

  lemma NextLetterOf(front: string, d: nat)
    requires AllLetters(front) && d < 26
    ensures NextLetters(front + ['A' + d as char]) == if d == 25 then NextLetters(front) + ['A'] else front + ['A' + (d + 1) as char]
  {
    var s := front + ['A' + d as char];
    assert s[..|s| - 1] == front && s[|s| - 1] == 'A' + d as char;
  }

  lemma LettersCarry(column: nat)
    requires column > 0 && (column - 1) % 26 == 25
    ensures column / 26 == (column - 1) / 26 + 1 && column % 26 == 0
  {
  }

  lemma LettersStay(column: nat)
    requires column > 0 && (column - 1) % 26 != 25
    ensures column / 26 == (column - 1) / 26 && column % 26 == (column - 1) % 26 + 1
  {
  }

  function NextDigits(s: string): string
    requires AllDigits(s)
  {
    if s == "" then "1"
    else if s[|s| - 1] == '9' then NextDigits(s[..|s| - 1]) + "0"
    else s[..|s| - 1] + [(s[|s| - 1] as int + 1) as char]
  }

  // Rows are written 1, 2, …, 9, 10, … in turn.
  lemma {:induction false} RowsInTurn(row: nat)
    ensures RowDigits(0) == "0" && RowDigits(row + 1) == NextDigits(RowDigits(row))
    decreases row
  {
    hide RowDigits, RowNumber, NextDigits;
    DigitsAre(0);
    DigitsAre(row);
    DigitsAre(row + 1);
    NextOf(if row < 10 then "" else RowDigits(row / 10), row % 10);
    if row % 10 == 9 {
      TensCarry(row);
      if row > 9 { RowsInTurn(row / 10); } else { FirstDigit(); }
    } else {
      TensStay(row);
    }
  }

  lemma NextOf(front: string, d: nat)
    requires AllDigits(front) && d < 10
    ensures NextDigits(front + ['0' + d as char]) == if d == 9 then NextDigits(front) + ['0'] else front + ['0' + (d + 1) as char]
  {
    var s := front + ['0' + d as char];
    assert s[..|s| - 1] == front && s[|s| - 1] == '0' + d as char;
  }

  lemma FirstDigit()
    ensures NextDigits("") == "1" == RowDigits(1)
  {
  }

  lemma DigitsAre(row: nat)
    ensures RowDigits(row) == (if row < 10 then "" else RowDigits(row / 10)) + ['0' + (row % 10) as char]
  {
    if row < 10 { assert row % 10 == row; }
  }

  lemma TensCarry(row: nat)
    requires row % 10 == 9
    ensures (row + 1) / 10 == row / 10 + 1 && (row + 1) % 10 == 0
  {
  }

  lemma TensStay(row: nat)
    requires row % 10 != 9
    ensures (row + 1) / 10 == row / 10 && (row + 1) % 10 == row % 10 + 1
  {
  }

  // -------- areas --------

  // The cells of an area, row by row and each row from left to right.
  predicate Covers(keys: seq<Cell>, sheet: string, row: int, column: int, height: nat, width: nat) {
    |keys| == height * width && forall i: nat, j: nat :: i < height && j < width ==> Stands(keys, sheet, row, column, width, i, j)
  }

  predicate Stands(keys: seq<Cell>, sheet: string, row: int, column: int, width: nat, i: nat, j: nat) {
    0 <= i * width + j < |keys| && keys[i * width + j] == Cell(sheet, row + i, column + j)
  }

  lemma RectCovers(sheet: string, rect: Rect)
    requires rect.firstRow <= rect.lastRow && rect.firstColumn <= rect.lastColumn
    ensures Covers(RectCells(sheet, rect), sheet, rect.firstRow, rect.firstColumn, rect.lastRow - rect.firstRow + 1, rect.lastColumn - rect.firstColumn + 1)
  {
    RectCellsExact(sheet, rect, Cell(sheet, 0, 0));
    var width := rect.lastColumn - rect.firstColumn + 1;
    forall i: nat, j: nat | i < rect.lastRow - rect.firstRow + 1 && j < width
      ensures Stands(RectCells(sheet, rect), sheet, rect.firstRow, rect.firstColumn, width, i, j)
    {
      RectCellAt(sheet, rect, i, j);
    }
  }

  // Only one list covers an area.
  lemma CoversOne(a: seq<Cell>, b: seq<Cell>, sheet: string, row: int, column: int, height: nat, width: nat)
    requires width >= 1 && Covers(a, sheet, row, column, height, width) && Covers(b, sheet, row, column, height, width)
    ensures a == b
  {
    forall k | 0 <= k < |a| ensures a[k] == b[k] {
      var i, j := RowOf(k, height, width);
      assert Stands(a, sheet, row, column, width, i, j) && Stands(b, sheet, row, column, width, i, j);
    }
  }

  lemma RowOf(k: nat, height: nat, width: nat) returns (i: nat, j: nat)
    requires width >= 1 && k < height * width
    ensures i < height && j < width && i * width + j == k
  {
    i, j := k / width, k % width;
    if i >= height { MoreRows(height, i, width); }
  }

  lemma MoreRows(a: nat, b: nat, width: nat)
    requires a <= b
    ensures a * width <= b * width
  {
  }

  // A tree that names an area: a reference when it is one cell.
  predicate Names(n: Node, sheet: string, row: int, column: int, height: nat, width: nat) {
    if height == 1 && width == 1 then n == Reference(Cell(sheet, row, column))
    else n.Range? && n.rows == height && n.columns == width && Covers(n.cells, sheet, row, column, height, width)
  }

  // What is read for an area: a tree naming it, and nothing for too large a one.
  predicate ReadsArea(p: Parse, sheet: string, row: int, column: int, height: nat, width: nat) {
    if height * width > 100000 then p.node.None? else p.node.Some? && Names(p.node.value, sheet, row, column, height, width)
  }

  lemma BuildReads(sheet: string, rect: Rect, s: State)
    requires Proper(rect)
    ensures ReadsArea(BuildRangeAt(sheet, rect, s), sheet, rect.firstRow, rect.firstColumn, rect.lastRow - rect.firstRow + 1, rect.lastColumn - rect.firstColumn + 1)
    ensures BuildRangeAt(sheet, rect, s).node.Some? ==>
              BuildRangeAt(sheet, rect, s).st.deps == s.deps + set c | c in RectCells(sheet, rect)
  {
    hide RectCells, Covers;
    var height, width := rect.lastRow - rect.firstRow + 1, rect.lastColumn - rect.firstColumn + 1;
    RectCovers(sheet, rect);
    OneByOne(height, width);
    if height == 1 && width == 1 { FirstCell(RectCells(sheet, rect), sheet, rect.firstRow, rect.firstColumn); }
  }

  lemma FirstCell(keys: seq<Cell>, sheet: string, row: int, column: int)
    requires Covers(keys, sheet, row, column, 1, 1)
    ensures keys == [Cell(sheet, row, column)]
  {
    assert Stands(keys, sheet, row, column, 1, 0, 0);
  }

  lemma OneByOne(height: nat, width: nat)
    requires height >= 1 && width >= 1
    ensures height * width == 1 <==> height == 1 && width == 1
  {
    if height > 1 { MoreRows(2, height, width); }
  }

  // -------- A2:B9, A:C and A2:C --------

  // One end of a range in writing: a cell, or a column alone.
  datatype End = At(row: nat, column: nat) | Whole(column: nat)

  predicate OnTheSheet(e: End) { 1 <= e.column <= 16384 && (e.At? ==> 1 <= e.row <= 1048576) }

  function Written(e: End): string {
    match e
    case At(row, column) => AddressText(row, column)
    case Whole(column) => ColumnLetters(column)
  }

  function Least(a: int, b: int): int { if a <= b then a else b }

  function Greatest(a: int, b: int): int { if a <= b then b else a }

  lemma ShortLetters(column: nat)
    requires 1 <= column <= 16384
    ensures 1 <= |ColumnLetters(column)| <= 3
  {
    hide ColumnNumber;
    var a := (column - 1) / 26;
    assert a <= 630 && |ColumnLetters(column)| == |ColumnLetters(a)| + 1;
    if a > 0 {
      var b := (a - 1) / 26;
      assert 0 <= b <= 24 && |ColumnLetters(a)| == |ColumnLetters(b)| + 1;
      if b > 0 { assert (b - 1) / 26 == 0 && |ColumnLetters(b)| == |ColumnLetters(0)| + 1; }
    }
  }

  lemma EndIsRead(e: End)
    requires OnTheSheet(e)
    ensures e.At? ==> ParseCell(Written(e)) == Some((e.row, e.column)) && ParseColumn(Written(e)).None?
    ensures e.Whole? ==> ParseCell(Written(e)).None? && ParseColumn(Written(e)) == Some(e.column)
  {
    hide ColumnLetters, ColumnNumber, RowDigits;
    if e.At? {
      AddressRoundTrip(e.row, e.column);
    } else {
      ShortLetters(e.column);
    }
  }

  // Between two cells the corners must be in order.  With a column alone the rows
  // start at the first or end where the sheet does, and columns may be turned.
  lemma RangeIs(a: End, b: End, extent: Extent)
    requires OnTheSheet(a) && OnTheSheet(b) && extent.rows >= 1 && extent.columns >= 1
    ensures RangeRect(Written(a), Written(b), extent)
         == if a.At? && b.At? && (b.row < a.row || b.column < a.column) then None
            else
              var top := if a.At? then a.row else 1;
              Some(Rect(top, Least(a.column, b.column), Greatest(top, if b.At? then b.row else extent.rows), Greatest(a.column, b.column)))
  {
    hide ParseCell, ParseColumn;
    EndIsRead(a);
    EndIsRead(b);
  }

  // How far a sheet reaches, an empty one one row and one column.
  function Reach(scope: Scope, sheet: string): Extent {
    Extent(Greatest(1, scope.extentOf(sheet).rows), Greatest(1, scope.extentOf(sheet).columns))
  }

  // The sheet a reference is on: the one named before `!`, or the formula's own.
  predicate IsOn(scope: Scope, qualifier: string, sheet: string) {
    if qualifier == "" then sheet == scope.currentSheet else scope.sheetOf(qualifier) == Some(sheet)
  }

  // `a:b` on a sheet: the parser has read a and stands on the colon.
  lemma BetweenReads(src: Source, qualifier: string, sheet: string, a: End, b: End, s: State)
    requires src.Valid() && s.pos + 2 < |src.tokens| && src.tokens[s.pos] == TColon && src.tokens[s.pos + 1] == TName(Written(b))
    requires OnTheSheet(a) && OnTheSheet(b) && IsOn(src.scope, qualifier, sheet)
    ensures var p := src.CellReference(qualifier, Written(a), s);
            if a.At? && b.At? && (b.row < a.row || b.column < a.column) then p.node.None?
            else
              var top, left := if a.At? then a.row else 1, Least(a.column, b.column);
              var bottom := Greatest(top, if b.At? then b.row else Reach(src.scope, sheet).rows);
              && (p.node.Some? ==> p.st.pos == s.pos + 2)
              && ReadsArea(p, sheet, top, left, bottom - top + 1, Greatest(a.column, b.column) - left + 1)
  {
    hide ParseCell, ParseColumn, RangeRect, ColumnLetters, RowDigits, ReadsArea, BuildRangeAt;
    EndIsRead(a);
    RangeIs(a, b, Reach(src.scope, sheet));
    var rect := RangeRect(Written(a), Written(b), Reach(src.scope, sheet));
    if rect.Some? { BuildReads(sheet, rect.value, Advance(Advance(s))); }
  }

  // The formula `a:b`.
  lemma ColonReads(a: End, b: End, scope: Scope)
    requires OnTheSheet(a) && OnTheSheet(b)
    ensures var p := Source([TName(Written(a)), TColon, TName(Written(b)), TEnd], scope).Formula();
            if a.At? && b.At? && (b.row < a.row || b.column < a.column) then p.node.None?
            else
              var top, left := if a.At? then a.row else 1, Least(a.column, b.column);
              var bottom := Greatest(top, if b.At? then b.row else Reach(scope, scope.currentSheet).rows);
              ReadsArea(p, scope.currentSheet, top, left, bottom - top + 1, Greatest(a.column, b.column) - left + 1)
  {
    hide ParseCell, ParseColumn, ColumnLetters, RowDigits, ReadsArea, Source.CellReference, Source.Formula, Source.Primary;
    var src := Source([TName(Written(a)), TColon, TName(Written(b)), TEnd], scope);
    EndIsRead(a);
    NotALogical(a);
    var s := State(1, {}, [], 0);
    BetweenReads(src, "", scope.currentSheet, a, b, s);
    NameIsRead(src);
    var p := src.CellReference("", Written(a), s);
    assert src.PlainName(Written(a), s) == p;
    Alone(src, p);
    ReadsAlike(p, src.Formula());
  }

  // The formula `Sheet!a:b`.
  lemma QualifiedReads(name: string, sheet: string, a: End, b: End, scope: Scope)
    requires OnTheSheet(a) && OnTheSheet(b) && name != "" && scope.sheetOf(name) == Some(sheet)
    ensures var p := Source([TName(name), TBang, TName(Written(a)), TColon, TName(Written(b)), TEnd], scope).Formula();
            if a.At? && b.At? && (b.row < a.row || b.column < a.column) then p.node.None?
            else
              var top, left := if a.At? then a.row else 1, Least(a.column, b.column);
              var bottom := Greatest(top, if b.At? then b.row else Reach(scope, sheet).rows);
              ReadsArea(p, sheet, top, left, bottom - top + 1, Greatest(a.column, b.column) - left + 1)
  {
    hide ParseCell, ParseColumn, ColumnLetters, RowDigits, ReadsArea, Source.CellReference, Source.Formula;
    var src := Source([TName(name), TBang, TName(Written(a)), TColon, TName(Written(b)), TEnd], scope);
    var s := State(3, {}, [], 0);
    BetweenReads(src, name, sheet, a, b, s);
    var p := src.CellReference(name, Written(a), s);
    assert src.Primary(State(0, {}, [], 0)) == src.Qualified(name, State(2, {}, [], 0)) == p;
    Alone(src, p);
    ReadsAlike(p, src.Formula());
  }

  // A cell by itself.
  lemma CellReads(row: nat, column: nat, scope: Scope)
    requires OnTheSheet(At(row, column))
    ensures Source([TName(AddressText(row, column)), TEnd], scope).Formula()
         == Done(Reference(Cell(scope.currentSheet, row, column)), State(1, {Cell(scope.currentSheet, row, column)}, [], 0))
  {
    hide ParseCell, ParseColumn, ColumnLetters, RowDigits, Source.Formula;
    var src := Source([TName(AddressText(row, column)), TEnd], scope);
    EndIsRead(At(row, column));
    NotALogical(At(row, column));
    var c := Cell(scope.currentSheet, row, column);
    var p := Done(Reference(c), State(1, {c}, [], 0));
    NameIsRead(src);
    assert src.CellReference("", AddressText(row, column), State(1, {}, [], 0)) == p;
    assert src.PlainName(AddressText(row, column), State(1, {}, [], 0)) == p;
    Alone(src, p);
  }

  // The formula `m:n` names whole rows as far as the sheet reaches.
  lemma RowsRead(m: nat, n: nat, scope: Scope)
    requires 1 <= m <= 1048576 && 1 <= n <= 1048576
    ensures ReadsArea(Source([TWhole(m), TColon, TWhole(n), TEnd], scope).Formula(), scope.currentSheet, Least(m, n), 1,
                      Greatest(m, n) - Least(m, n) + 1, Reach(scope, scope.currentSheet).columns)
  {
    hide ReadsArea, BuildRangeAt, Source.Formula;
    var src := Source([TWhole(m), TColon, TWhole(n), TEnd], scope);
    var rect := Rect(Least(m, n), 1, Greatest(m, n), Reach(scope, scope.currentSheet).columns);
    var p := BuildRangeAt(scope.currentSheet, rect, State(3, {}, [], 0));
    BuildReads(scope.currentSheet, rect, State(3, {}, [], 0));
    assert src.RowBand("", m, State(1, {}, [], 0)) == p;
    assert src.Primary(State(0, {}, [], 0)) == p;
    Alone(src, p);
    ReadsAlike(p, src.Formula());
  }

  lemma NotALogical(e: End)
    requires OnTheSheet(e)
    ensures Written(e) != "TRUE" && Written(e) != "FALSE"
  {
    hide ColumnLetters, RowDigits, ColumnNumber, RowNumber;
    EndIsRead(e);
    if e.At? {
      var digits := RowDigits(e.row);
      assert IsDigit(Written(e)[|Written(e)| - 1]) by { assert Written(e)[|Written(e)| - 1] == digits[|digits| - 1]; }
    } else {
      ShortLetters(e.column);
    }
  }

  lemma ReadsAlike(p: Parse, q: Parse)
    requires p.node == q.node
    ensures forall sheet, row, column, height: nat, width: nat :: ReadsArea(p, sheet, row, column, height, width) == ReadsArea(q, sheet, row, column, height, width)
  {
  }

  lemma NameIsRead(src: Source)
    requires src.Valid() && |src.tokens| >= 2 && src.tokens[0].TName? && !src.tokens[1].TBang? && !src.tokens[1].TLeft?
    ensures src.Primary(State(0, {}, [], 0)) == src.PlainName(src.tokens[0].name, State(1, {}, [], 0))
  {
    hide Source.PlainName;
  }

  // A primary that nothing is left behind is the formula.
  lemma Alone(src: Source, p: Parse)
    requires src.Valid() && src.tokens[0] != TOp("+") && src.tokens[0] != TOp("-") && src.Primary(State(0, {}, [], 0)) == p
    requires p.node.Some? ==> p.st.pos == |src.tokens| - 1
    ensures src.Formula() == p
  {
    hide Source.Primary, Precedence;
    var start := State(0, {}, [], 0);
    assert src.Prefix(start) == p;
    if p.node.Some? { assert src.Operators(p.node.value, 0, p.st) == p; }
  }

  // -------- OFFSET over numbers --------

  // Where a reference stands and how large it is.
  predicate Starts(n: Node, sheet: string, row: int, column: int, height: int, width: int) {
    && 1 <= row <= 1048576 && 1 <= column <= 16384
    && if n.Reference? then n.cell == Cell(sheet, row, column) && height == 1 && width == 1
       else n.Range? && n.rows == height && n.columns == width && n.cells != [] && n.cells[0] == Cell(sheet, row, column)
  }

  // A number, or nothing where an argument is left out.
  predicate Amount(scope: Scope, n: Node, amount: Option<int>) {
    n.Literal? && if n.value.Omitted? then amount.None? else amount.Some? && scope.wholeNumber(n.value) == amount
  }

  function OrElse(amount: Option<int>, otherwise: int): int { if amount.Some? then amount.value else otherwise }

  // OFFSET(reference, down, right, height, width): so many rows down and columns to
  // the right, of the size given or else the reference's own.
  lemma OffsetReads(scope: Scope, n: Node, args: seq<Node>, amounts: seq<Option<int>>, sheet: string, row: int, column: int, height: int, width: int, s: State)
    requires Starts(n, sheet, row, column, height, width) && RefsAll([n] + args) <= s.deps
    requires 2 <= |args| == |amounts| <= 4 && forall i :: 0 <= i < |args| ==> Amount(scope, args[i], amounts[i])
    ensures var p := ReferenceFunction(scope, "OFFSET", [n] + args, s);
            var top, left := row + OrElse(amounts[0], 0), column + OrElse(amounts[1], 0);
            var h := if |amounts| > 2 then OrElse(amounts[2], height) else height;
            var w := if |amounts| > 3 then OrElse(amounts[3], width) else width;
            if top < 1 || left < 1 || h < 1 || w < 1 then p.node.None? else ReadsArea(p, sheet, top, left, h, w)
  {
    hide ReadsArea, BuildRangeAt, ConstantOffsets, OffsetRect, NodeReference, Amount, RefsAll, ReferenceFunction, Starts;
    var all, place := [n] + args, Place(sheet, row, column, height, width);
    assert all[0] == n && all[1..] == args;
    OffsetsAre(scope, args, amounts);
    StartIsPlace(n, sheet, row, column, height, width);
    var offsets := ConstantOffsets(scope, args).value;
    OffsetMoves(place, offsets, amounts);
    var rect := OffsetRect(place, offsets);
    OffsetBuilds(scope, all, place, offsets, s);
    if rect.Some? { BuildReads(sheet, rect.value, s); }
  }

  lemma OffsetBuilds(scope: Scope, args: seq<Node>, place: Place, offsets: seq<Offset>, s: State)
    requires 3 <= |args| <= 5 && RefsAll(args) <= s.deps && NodeReference(args[0]) == Some(place)
    requires ConstantOffsets(scope, args[1..]) == Some(offsets)
    ensures |offsets| == |args| - 1
    ensures ReferenceFunction(scope, "OFFSET", args, s)
         == match OffsetRect(place, offsets) case None => Fail(s) case Some(rect) => BuildRangeAt(place.sheet, rect, s)
  {
    hide BuildRangeAt, OffsetRect, Refs, NodeReference;
  }

  lemma StartIsPlace(n: Node, sheet: string, row: int, column: int, height: int, width: int)
    requires Starts(n, sheet, row, column, height, width)
    ensures NodeReference(n) == Some(Place(sheet, row, column, height, width))
  {
  }

  lemma OffsetMoves(place: Place, offsets: seq<Offset>, amounts: seq<Option<int>>)
    requires 2 <= |offsets| == |amounts| <= 4
    requires forall i :: 0 <= i < |offsets| ==> offsets[i] == if amounts[i].Some? then Given(amounts[i].value) else Skipped
    ensures var top, left := place.row + OrElse(amounts[0], 0), place.column + OrElse(amounts[1], 0);
            var h := if |amounts| > 2 then OrElse(amounts[2], place.rows) else place.rows;
            var w := if |amounts| > 3 then OrElse(amounts[3], place.columns) else place.columns;
            OffsetRect(place, offsets)
            == if top < 1 || left < 1 || h < 1 || w < 1 then None else Some(Rect(top, left, top + h - 1, left + w - 1))
  {
  }

  lemma {:induction false} OffsetsAre(scope: Scope, args: seq<Node>, amounts: seq<Option<int>>)
    requires |args| == |amounts| && forall i :: 0 <= i < |args| ==> Amount(scope, args[i], amounts[i])
    ensures var r := ConstantOffsets(scope, args);
            r.Some? && forall i :: 0 <= i < |args| ==> r.value[i] == if amounts[i].Some? then Given(amounts[i].value) else Skipped
  {
    if args != [] {
      assert forall i :: 0 <= i < |args| - 1 ==> args[1..][i] == args[i + 1] && amounts[1..][i] == amounts[i + 1];
      OffsetsAre(scope, args[1..], amounts[1..]);
      assert Amount(scope, args[0], amounts[0]);
    }
  }

  // ROW and COLUMN of a reference, or of the formula's own cell.
  lemma WhereReads(scope: Scope, n: Node, sheet: string, row: int, column: int, height: int, width: int, s: State)
    requires Starts(n, sheet, row, column, height, width) && RefsAll([n]) <= s.deps
    ensures ReferenceFunction(scope, "ROW", [n], s) == Done(Literal(Number(row as real)), s)
    ensures ReferenceFunction(scope, "COLUMN", [n], s) == Done(Literal(Number(column as real)), s)
    ensures scope.anchor == Some((row, column)) ==>
              && RefsAll([]) <= s.deps && ReferenceFunction(scope, "ROW", [], s) == Done(Literal(Number(row as real)), s)
              && ReferenceFunction(scope, "COLUMN", [], s) == Done(Literal(Number(column as real)), s)
  {
    hide NodeReference, Refs;
    StartIsPlace(n, sheet, row, column, height, width);
    RefsAllNone();
  }

  // -------- INDIRECT with a text, and named ranges --------

  lemma IndirectReads(scope: Scope, args: seq<Node>, qualifier: string, sheet: string, rect: Rect, s: State)
    requires 1 <= |args| <= 2 && args[0].Literal? && RefsAll(args) <= s.deps
    requires scope.textRange(args[0].value) == Some((qualifier, rect)) && IsOn(scope, qualifier, sheet)
    ensures var p := ReferenceFunction(scope, "INDIRECT", args, s);
            if rect.firstRow > rect.lastRow || rect.firstColumn > rect.lastColumn then p.node.None?
            else ReadsArea(p, sheet, rect.firstRow, rect.firstColumn, rect.lastRow - rect.firstRow + 1, rect.lastColumn - rect.firstColumn + 1)
  {
    hide ReadsArea, BuildRangeAt, Refs;
    if Proper(rect) { BuildReads(sheet, rect, s); }
  }

  lemma NamedReads(scope: Scope, name: string, sheet: string, rect: Rect, s: State)
    requires scope.namedRange(name) == Some((sheet, rect))
    ensures var p := NamedRange(scope, name, s);
            if rect.firstRow > rect.lastRow || rect.firstColumn > rect.lastColumn then p.node.None?
            else ReadsArea(p, sheet, rect.firstRow, rect.firstColumn, rect.lastRow - rect.firstRow + 1, rect.lastColumn - rect.firstColumn + 1)
  {
    hide ReadsArea, BuildRangeAt;
    if Proper(rect) { BuildReads(sheet, rect, s); }
  }
}
