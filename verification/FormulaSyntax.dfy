/**
  The tokens, trees and values of the formula language, and the workbook
  knowledge (`Scope`) a parser is given.
*/
module FormulaSyntax {
  import opened CellAddress

  // A cell key: a stable sheet identifier and a position on that sheet.
  datatype Cell = Cell(sheet: string, row: int, column: int)

  // A number token is split in two: TWhole is a number whose text is digits
  // only (the form a row number takes), TDecimal is every other number.  TName
  // carries the identifier with `$` removed and letters upper-cased.
  datatype Token =
    | TEnd
    | TWhole(whole: nat)
    | TDecimal(decimal: real)
    | TText(text: string)
    | TName(name: string)
    | TQuoted(sheet: string)
    | TOp(op: string)
    | TError(code: string)
    | TLeft
    | TRight
    | TComma
    | TSemicolon
    | TColon
    | TBang
    | TOpen
    | TClose

  datatype Value =
    | Blank
    | Number(number: real)
    | Boolean(flag: bool)
    | Str(str: string)
    | Omitted
    | Failure(code: string)
    | Array(rows: nat, columns: nat, items: seq<Value>)
    | Closure(frame: nat, arity: nat, body: Node)
    | Function(name: string)

  // A binding frame is named by a number; Bound(f, i) is the i-th name of
  // frame f.
  datatype Node =
    | Literal(value: Value)
    | ErrorLiteral(code: string)
    | Reference(cell: Cell)
    | Range(rows: nat, columns: nat, cells: seq<Cell>)
    | Unary(op: string, operand: Node)
    | Binary(op: string, left: Node, right: Node)
    | Call(name: string, args: seq<Node>)
    | Let(frame: nat, values: seq<Node>, body: Node)
    | Lambda(frame: nat, arity: nat, body: Node)
    | Apply(target: Node, args: seq<Node>)
    | Bound(frame: nat, index: nat)
    | ArrayLit(rows: nat, columns: nat, items: seq<Node>)
    | Dynamic(kind: string, args: seq<Node>, sheet: string, row: int, column: int)

  datatype Extent = Extent(rows: int, columns: int)

  datatype Rect = Rect(firstRow: int, firstColumn: int, lastRow: int, lastColumn: int)

  // What the workbook tells the parser.  The functions stand for the tables and
  // text conversions the parser consults; every result below holds for all of
  // them.
  datatype Scope = Scope(
    currentSheet: string,
    sheetOf: string -> Option<string>,
    extentOf: string -> Extent,
    namedRange: string -> Option<(string, Rect)>,
    callable: string -> bool,
    canonical: string -> string,
    wholeNumber: Value -> Option<int>,
    textRange: Value -> Option<(string, Rect)>,
    anchor: Option<(int, int)>)

  function Precedence(op: string): int {
    if op in {"=", "<>", "<", ">", "<=", ">="} then 1
    else if op == "&" then 2
    else if op in {"+", "-"} then 3
    else if op in {"*", "/"} then 4
    else if op == "^" then 5
    else -1
  }

  // The least precedence the right operand may have: `^` groups to the right,
  // every other operator to the left.
  function RightMinimum(op: string): int {
    if op == "^" then Precedence(op) else Precedence(op) + 1
  }

  // Every cell a tree can read once its dynamic references are set aside.
  function Refs(n: Node): set<Cell>
    decreases n, 0
  {
    match n
    case Literal(v) => RefsOf(v)
    case Reference(cell) => {cell}
    case Range(_, _, cells) => set c | c in cells
    case Unary(_, operand) => Refs(operand)
    case Binary(_, left, right) => Refs(left) + Refs(right)
    case Call(_, args) => RefsAll(args)
    case Let(_, values, body) => RefsAll(values) + Refs(body)
    case Lambda(_, _, body) => Refs(body)
    case Apply(target, args) => Refs(target) + RefsAll(args)
    case ArrayLit(_, _, items) => RefsAll(items)
    case Dynamic(_, args, _, _, _) => RefsAll(args)
    case _ => {}
  }

  // A value reads cells only through the functions it holds.
  function RefsOf(v: Value): set<Cell>
    decreases v, 0
  {
    match v
    case Array(_, _, items) => set i, c | i in items && c in RefsOf(i) :: c
    case Closure(_, _, body) => Refs(body)
    case _ => {}
  }

  function RefsAll(nodes: seq<Node>): set<Cell>
    decreases nodes, 1
  {
    set n, c | n in nodes && c in Refs(n) :: c
  }

  lemma RefsAllAppend(nodes: seq<Node>, n: Node)
    ensures RefsAll(nodes + [n]) == RefsAll(nodes) + Refs(n)
  {
    assert forall x :: x in nodes + [n] <==> x in nodes || x == n;
  }

  lemma RefsAllNone()
    ensures RefsAll([]) == {}
  {
  }

  lemma RefsAllSplit(a: seq<Node>, b: seq<Node>)
    ensures RefsAll(a + b) == RefsAll(a) + RefsAll(b)
  {
  }

  function Flatten(rows: seq<seq<Node>>): seq<Node> {
    if rows == [] then [] else rows[0] + Flatten(rows[1..])
  }

  lemma {:induction false} RefsFlatten(rows: seq<seq<Node>>, allowed: set<Cell>)
    requires forall row :: row in rows ==> RefsAll(row) <= allowed
    ensures RefsAll(Flatten(rows)) <= allowed
  {
    if rows != [] {
      RefsFlatten(rows[1..], allowed);
      RefsAllSplit(rows[0], Flatten(rows[1..]));
    }
  }

  // Flattening keeps every reference and makes up none.
  lemma {:induction false} FlattenRefs(rows: seq<seq<Node>>, c: Cell)
    ensures c in RefsAll(Flatten(rows)) <==> exists i :: 0 <= i < |rows| && c in RefsAll(rows[i])
  {
    if rows == [] {
      assert RefsAll(Flatten(rows)) == {};
    } else {
      FlattenRefs(rows[1..], c);
      RefsAllSplit(rows[0], Flatten(rows[1..]));
      assert forall i :: 0 <= i < |rows| - 1 ==> rows[1..][i] == rows[i + 1];
      assert forall i :: 0 < i < |rows| ==> rows[i] == rows[1..][i - 1];
    }
  }

  lemma OneRowMore(n: nat, width: nat)
    ensures (n + 1) * width == width + n * width
  {
  }

  lemma {:induction false} FlattenLength(rows: seq<seq<Node>>, width: nat)
    requires forall r :: r in rows ==> |r| == width
    ensures |Flatten(rows)| == |rows| * width
  {
    if rows != [] {
      FlattenLength(rows[1..], width);
      assert rows[0] in rows;
      OneRowMore(|rows| - 1, width);
    }
  }

  // The cells of one row of a rectangle, left to right.
  function RowCells(sheet: string, row: int, column: int, last: int): seq<Cell>
    decreases last - column
  {
    if column > last then [] else [Cell(sheet, row, column)] + RowCells(sheet, row, column + 1, last)
  }

  // The cells of a rectangle, row by row.
  function RectCells(sheet: string, rect: Rect): seq<Cell>
    decreases rect.lastRow - rect.firstRow
  {
    if rect.firstRow > rect.lastRow then []
    else
      RowCells(sheet, rect.firstRow, rect.firstColumn, rect.lastColumn)
      + RectCells(sheet, rect.(firstRow := rect.firstRow + 1))
  }

  lemma {:induction false} RowCellsExact(sheet: string, row: int, column: int, last: int, c: Cell)
    ensures c in RowCells(sheet, row, column, last)
       <==> c.sheet == sheet && c.row == row && column <= c.column <= last
    ensures |RowCells(sheet, row, column, last)| == if column > last then 0 else last - column + 1
    decreases last - column
  {
    if column <= last {
      RowCellsExact(sheet, row, column + 1, last, c);
    }
  }

  // A built range lists exactly the cells of its rectangle, each row whole.
  lemma {:induction false} RectCellsExact(sheet: string, rect: Rect, c: Cell)
    requires rect.firstColumn <= rect.lastColumn
    ensures c in RectCells(sheet, rect)
       <==> c.sheet == sheet && rect.firstRow <= c.row <= rect.lastRow
            && rect.firstColumn <= c.column <= rect.lastColumn
    ensures rect.firstRow <= rect.lastRow ==>
              |RectCells(sheet, rect)| == (rect.lastRow - rect.firstRow + 1) * (rect.lastColumn - rect.firstColumn + 1)
    decreases rect.lastRow - rect.firstRow
  {
    if rect.firstRow <= rect.lastRow {
      RowCellsExact(sheet, rect.firstRow, rect.firstColumn, rect.lastColumn, c);
      RectCellsExact(sheet, rect.(firstRow := rect.firstRow + 1), c);
      if rect.firstRow == rect.lastRow {
        assert RectCells(sheet, rect.(firstRow := rect.firstRow + 1)) == [];
      }
    }
  }

  lemma {:induction false} RowCellAt(sheet: string, row: int, column: int, last: int, i: nat)
    requires column + i <= last
    ensures |RowCells(sheet, row, column, last)| == last - column + 1
    ensures RowCells(sheet, row, column, last)[i] == Cell(sheet, row, column + i)
    decreases last - column
  {
    RowCellsExact(sheet, row, column, last, Cell(sheet, row, column));
    if i > 0 { RowCellAt(sheet, row, column + 1, last, i - 1); }
  }

  // The number of cells in n rows.
  function Rows(n: nat, width: nat): nat { if n == 0 then 0 else width + Rows(n - 1, width) }

  lemma {:induction false} RowsIsProduct(n: nat, width: nat)
    ensures Rows(n, width) == n * width
  {
    if n > 0 {
      RowsIsProduct(n - 1, width);
      OneRowMore(n - 1, width);
    }
  }

  // They are listed row by row, each row from left to right.
  lemma RectCellAt(sheet: string, rect: Rect, r: nat, c: nat)
    requires rect.firstRow + r <= rect.lastRow && rect.firstColumn + c <= rect.lastColumn
    ensures var k := r * (rect.lastColumn - rect.firstColumn + 1) + c;
            0 <= k < |RectCells(sheet, rect)| && RectCells(sheet, rect)[k] == Cell(sheet, rect.firstRow + r, rect.firstColumn + c)
  {
    RowsIsProduct(r, rect.lastColumn - rect.firstColumn + 1);
    CellInRow(sheet, rect, r, c);
  }

  lemma {:induction false} CellInRow(sheet: string, rect: Rect, r: nat, c: nat)
    requires rect.firstRow + r <= rect.lastRow && rect.firstColumn + c <= rect.lastColumn
    ensures var k := Rows(r, rect.lastColumn - rect.firstColumn + 1) + c;
            k < |RectCells(sheet, rect)| && RectCells(sheet, rect)[k] == Cell(sheet, rect.firstRow + r, rect.firstColumn + c)
    decreases r
  {
    RowCellAt(sheet, rect.firstRow, rect.firstColumn, rect.lastColumn, c);
    if r > 0 { CellInRow(sheet, rect.(firstRow := rect.firstRow + 1), r - 1, c); }
  }
}
