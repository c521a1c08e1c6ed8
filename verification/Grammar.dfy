/**
  The formula grammar as functions from a parser state to a tree and a new
  state.  Class `FormulaParser.Parser` is the moving-cursor parser proved equal
  to it.

  Every function demands that the cursor is on a token and promises the same
  things (`Sound`): the cursor stays inside the list, a success moves it
  forward, the names in scope are those it started with, dependencies only
  grow, and they cover every cell the tree refers to.
*/
module Grammar {
  import opened CellAddress
  import opened FormulaSyntax

  const MAX_RANGE_CELLS := 100000

  // A name LET or LAMBDA put in scope, innermost last.
  datatype Binding = Binding(name: string, frame: nat, index: nat)

  // `unused` is the next frame number nobody has been given.
  datatype State = State(pos: nat, deps: set<Cell>, binds: seq<Binding>, unused: nat)

  // A parse that failed has no node; its state is where the parser gave up.
  datatype Parse = Parse(node: Option<Node>, st: State)

  datatype ParseList = ParseList(nodes: Option<seq<Node>>, st: State)

  function Advance(s: State): State { s.(pos := s.pos + 1) }

  function Fail(s: State): Parse { Parse(None, s) }

  function Done(n: Node, s: State): Parse { Parse(Some(n), s) }

  predicate IsNumber(t: Token) { t.TWhole? || t.TDecimal? }

  predicate IsSeparator(t: Token) { t.TComma? || t.TSemicolon? }

  function AsRow(t: Token): Option<int> {
    if t.TWhole? && 1 <= t.whole <= MAX_ROWS then Some(t.whole) else None
  }

  // The innermost binding of a name.
  function Lookup(binds: seq<Binding>, name: string): (n: Option<Node>)
    ensures n.Some? ==> n.value.Bound?
  {
    if binds == [] then None
    else
      var last := binds[|binds| - 1];
      if last.name == name then Some(Bound(last.frame, last.index)) else Lookup(binds[..|binds| - 1], name)
  }

  // The last binding of that name, and none only if there is none.
  lemma {:induction false} LookupInnermost(binds: seq<Binding>, name: string)
    ensures Lookup(binds, name).None? <==> forall b :: b in binds ==> b.name != name
    ensures Lookup(binds, name).Some? ==>
              exists i :: 0 <= i < |binds| && binds[i].name == name && Lookup(binds, name).value == Bound(binds[i].frame, binds[i].index)
                          && forall j :: i < j < |binds| ==> binds[j].name != name
    decreases |binds|
  {
    if binds != [] {
      var last, front := binds[|binds| - 1], binds[..|binds| - 1];
      assert binds == front + [last];
      if last.name != name { LookupInnermost(front, name); }
    }
  }

  function SheetFor(scope: Scope, qualifier: string): Option<string> {
    if qualifier == "" then Some(scope.currentSheet) else scope.sheetOf(qualifier)
  }

  function AtLeastOne(n: int): int { if n < 1 then 1 else n }

  function ExtentFor(scope: Scope, qualifier: string): (e: Extent)
    ensures e.rows >= 1 && e.columns >= 1
  {
    match SheetFor(scope, qualifier)
    case None => Extent(1, 1)
    case Some(sheet) =>
      var e := scope.extentOf(sheet);
      Extent(AtLeastOne(e.rows), AtLeastOne(e.columns))
  }

  predicate Proper(rect: Rect) {
    rect.firstRow <= rect.lastRow && rect.firstColumn <= rect.lastColumn
  }

  function CellCount(rect: Rect): int {
    (rect.lastRow - rect.firstRow + 1) * (rect.lastColumn - rect.firstColumn + 1)
  }

  // A rectangle becomes a reference when it is one cell, a range otherwise, and
  // every cell of it joins the dependencies.
  function BuildRangeAt(sheet: string, rect: Rect, s: State): (p: Parse)
    requires Proper(rect)
    ensures p.st == s.(deps := p.st.deps) && s.deps <= p.st.deps
    ensures p.node.Some? ==> Refs(p.node.value) <= p.st.deps
  {
    if CellCount(rect) > MAX_RANGE_CELLS then Fail(s)
    else
      var cells := RectCells(sheet, rect);
      RectCellsExact(sheet, rect, Cell(sheet, rect.firstRow, rect.firstColumn));
      var st := s.(deps := s.deps + set c | c in cells);
      if CellCount(rect) == 1 then Done(Reference(cells[0]), st)
      else Done(Range(rect.lastRow - rect.firstRow + 1, rect.lastColumn - rect.firstColumn + 1, cells), st)
  }

  function BuildRange(scope: Scope, qualifier: string, rect: Rect, s: State): (p: Parse)
    requires Proper(rect)
    ensures p.st == s.(deps := p.st.deps) && s.deps <= p.st.deps
    ensures p.node.Some? ==> Refs(p.node.value) <= p.st.deps
  {
    match SheetFor(scope, qualifier)
    case None => Fail(s)
    case Some(sheet) => BuildRangeAt(sheet, rect, s)
  }

  function NamedRange(scope: Scope, name: string, s: State): (p: Parse)
    ensures p.st == s.(deps := p.st.deps) && s.deps <= p.st.deps
    ensures p.node.Some? ==> Refs(p.node.value) <= p.st.deps
  {
    match scope.namedRange(name)
    case None => Fail(s)
    case Some((sheet, rect)) => if Proper(rect) then BuildRangeAt(sheet, rect, s) else Fail(s)
  }

  // Where an already-parsed reference starts and how large it is.
  datatype Place = Place(sheet: string, row: int, column: int, rows: int, columns: int)

  predicate OnSheet(c: Cell) { 1 <= c.row <= MAX_ROWS && 1 <= c.column <= MAX_COLUMNS }

  function NodeReference(n: Node): Option<Place> {
    match n
    case Reference(c) => if OnSheet(c) then Some(Place(c.sheet, c.row, c.column, 1, 1)) else None
    case Range(rows, columns, cells) =>
      if cells != [] && OnSheet(cells[0])
      then Some(Place(cells[0].sheet, cells[0].row, cells[0].column, rows, columns)) else None
    case _ => None
  }

  // A skipped argument of OFFSET is not the same as a zero.
  datatype Offset = Skipped | Given(amount: int)

  function OrElse(o: Offset, default: int): int {
    match o case Skipped => default case Given(n) => n
  }

  function ConstantOffsets(scope: Scope, args: seq<Node>): (r: Option<seq<Offset>>)
    ensures r.Some? ==> |r.value| == |args|
  {
    if args == [] then Some([])
    else if !args[0].Literal? then None
    else
      var first := if args[0].value.Omitted? then Some(Skipped)
                   else match scope.wholeNumber(args[0].value)
                        case None => None
                        case Some(n) => Some(Given(n));
      var rest := ConstantOffsets(scope, args[1..]);
      if first.None? || rest.None? then None else Some([first.value] + rest.value)
  }

  // OFFSET over whole numbers: the rectangle it names, refused above or left of
  // the first cell and for an empty size.
  function OffsetRect(place: Place, offsets: seq<Offset>): (r: Option<Rect>)
    requires 2 <= |offsets| <= 4
    ensures r.Some? ==> Proper(r.value) && r.value.firstRow >= 1 && r.value.firstColumn >= 1
  {
    var height := if |offsets| >= 3 then OrElse(offsets[2], place.rows) else place.rows;
    var width := if |offsets| == 4 then OrElse(offsets[3], place.columns) else place.columns;
    var row, column := place.row + OrElse(offsets[0], 0), place.column + OrElse(offsets[1], 0);
    if row < 1 || column < 1 || height < 1 || width < 1 then None
    else Some(Rect(row, column, row + height - 1, column + width - 1))
  }

  // ROW, COLUMN, OFFSET and INDIRECT are settled while parsing.
  predicate IsReferenceFunction(name: string) { name in {"ROW", "COLUMN", "OFFSET", "INDIRECT"} }

  function ReferenceFunction(scope: Scope, name: string, args: seq<Node>, s: State): (p: Parse)
    requires IsReferenceFunction(name)
    requires RefsAll(args) <= s.deps
    ensures p.st == s.(deps := p.st.deps) && s.deps <= p.st.deps
    ensures p.node.Some? ==> Refs(p.node.value) <= p.st.deps
  {
    if name == "OFFSET" then
      if |args| < 3 || |args| > 5 then Fail(s)
      else
        match NodeReference(args[0])
        case None => Fail(s)
        case Some(place) =>
          match ConstantOffsets(scope, args[1..])
          case None => Done(Dynamic(name, args, place.sheet, place.row, place.column), s)
          case Some(offsets) =>
            match OffsetRect(place, offsets)
            case None => Fail(s)
            case Some(rect) => BuildRangeAt(place.sheet, rect, s)
    else if name == "INDIRECT" then
      if |args| < 1 || |args| > 2 then Fail(s)
      else if !args[0].Literal? then Done(Dynamic(name, args, scope.currentSheet, 0, 0), s)
      else
        match scope.textRange(args[0].value)
        case None => Fail(s)
        case Some((qualifier, rect)) => if Proper(rect) then BuildRange(scope, qualifier, rect, s) else Fail(s)
    else
      var at := if args == [] then scope.anchor
                else if |args| > 1 then None
                else match NodeReference(args[0])
                     case None => None
                     case Some(place) => Some((place.row, place.column));
      match at
      case None => Fail(s)
      case Some((row, column)) => Done(Literal(Number((if name == "ROW" then row else column) as real)), s)
  }

  // The rectangle an A1 range or an unbounded column range covers.
  function RangeRect(start: string, end: string, extent: Extent): (r: Option<Rect>)
    requires extent.rows >= 1 && extent.columns >= 1
    ensures r.Some? ==> Proper(r.value)
  {
    var first, last := ParseCell(start), ParseCell(end);
    var firstOnly, lastOnly := ParseColumn(start), ParseColumn(end);
    if first.Some? && last.Some? then
      var rect := Rect(first.value.0, first.value.1, last.value.0, last.value.1);
      if Proper(rect) then Some(rect) else None
    else if (first.None? && firstOnly.None?) || (last.None? && lastOnly.None?) then None
    else
      var firstRow := if first.Some? then first.value.0 else 1;
      var lastRow := if last.Some? then last.value.0 else extent.rows;
      var firstColumn := if first.Some? then first.value.1 else firstOnly.value;
      var lastColumn := if last.Some? then last.value.1 else lastOnly.value;
      Some(Rect(firstRow, if firstColumn <= lastColumn then firstColumn else lastColumn,
                if lastRow < firstRow then firstRow else lastRow,
                if firstColumn <= lastColumn then lastColumn else firstColumn))
  }

  // An array literal with one item for every place of its rectangle.
  predicate FullArray(n: Node) {
    n.ArrayLit? && n.rows >= 1 && n.columns >= 1 && |n.items| == n.rows * n.columns
  }

  datatype Source = Source(tokens: seq<Token>, scope: Scope) {

    predicate Valid() { tokens != [] && tokens[|tokens| - 1].TEnd? }

    predicate Ready(s: State) { s.pos < |tokens| }

    function Tok(s: State): Token
      requires Ready(s)
    {
      tokens[s.pos]
    }

    ghost predicate Kept(s: State, st: State) {
      s.pos <= st.pos <= |tokens| && s.deps <= st.deps && s.unused <= st.unused
    }

    ghost predicate Sound(s: State, p: Parse) {
      Kept(s, p.st) && p.st.binds == s.binds
      && (p.node.Some? ==> s.pos < p.st.pos < |tokens| && Refs(p.node.value) <= p.st.deps)
    }

    // -------- references --------

    function CellReference(qualifier: string, start: string, s: State): (p: Parse)
      requires Valid() && Ready(s)
      ensures Kept(s, p.st) && p.st.binds == s.binds
      ensures p.node.Some? ==> p.st.pos < |tokens| && Refs(p.node.value) <= p.st.deps
    {
      if ParseCell(start).None? && ParseColumn(start).None? then Fail(s)
      else if !Tok(s).TColon? then
        match ParseCell(start)
        case None => Fail(s)
        case Some((row, column)) =>
          match SheetFor(scope, qualifier)
          case None => Fail(s)
          case Some(sheet) =>
            var cell := Cell(sheet, row, column);
            Done(Reference(cell), s.(deps := s.deps + {cell}))
      else
        var s1 := Advance(s);
        if !Tok(s1).TName? then Fail(s1)
        else
          var s2 := Advance(s1);
          match RangeRect(start, Tok(s1).name, ExtentFor(scope, qualifier))
          case None => Fail(s2)
          case Some(rect) => BuildRange(scope, qualifier, rect, s2)
    }

    // 2:5, with the cursor on the colon.
    function RowBand(qualifier: string, row: int, s: State): (p: Parse)
      requires Valid() && Ready(s) && Tok(s).TColon?
      ensures Kept(s, p.st) && p.st.binds == s.binds
      ensures p.node.Some? ==> p.st.pos < |tokens| && Refs(p.node.value) <= p.st.deps
    {
      var s1 := Advance(s);
      if !IsNumber(Tok(s1)) then Fail(s1)
      else
        var s2 := Advance(s1);
        match AsRow(Tok(s1))
        case None => Fail(s2)
        case Some(end) =>
          BuildRange(scope, qualifier,
                     Rect(if end < row then end else row, 1, if end < row then row else end,
                          ExtentFor(scope, qualifier).columns), s2)
    }

    // After `Sheet!`.
    function Qualified(qualifier: string, s: State): (p: Parse)
      requires Valid() && Ready(s)
      ensures Kept(s, p.st) && p.st.binds == s.binds
      ensures p.node.Some? ==> p.st.pos < |tokens| && Refs(p.node.value) <= p.st.deps
    {
      if IsNumber(Tok(s)) && tokens[s.pos + 1].TColon? then
        match AsRow(Tok(s))
        case None => Fail(s)
        case Some(row) => RowBand(qualifier, row, Advance(s))
      else if !Tok(s).TName? then Fail(s)
      else CellReference(qualifier, Tok(s).name, Advance(s))
    }

    // An identifier not followed by `(` or `!`.
    function PlainName(name: string, s: State): (p: Parse)
      requires Valid() && Ready(s)
      ensures Kept(s, p.st) && p.st.binds == s.binds
      ensures p.node.Some? ==> p.st.pos < |tokens| && Refs(p.node.value) <= p.st.deps
    {
      if name == "TRUE" then Done(Literal(Boolean(true)), s)
      else if name == "FALSE" then Done(Literal(Boolean(false)), s)
      else if ParseColumn(name).Some? && Tok(s).TColon? then CellReference("", name, s)
      else if Lookup(s.binds, name).Some? then Parse(Lookup(s.binds, name), s)
      else if ParseCell(name).None? then
        if scope.callable(name) then Done(Literal(Function(scope.canonical(name))), s)
        else NamedRange(scope, name, s)
      else CellReference("", name, s)
    }

    // Whether the next argument declares a name rather than ending the call.
    predicate StartsBindingName(s: State)
      requires Valid() && Ready(s)
    {
      Tok(s).TName? && IsSeparator(tokens[s.pos + 1]) && ParseCell(Tok(s).name).None?
    }

    // -------- expressions --------

    function Expression(minimum: int, s: State): (p: Parse)
      requires Valid() && Ready(s)
      ensures Sound(s, p)
      decreases |tokens| - s.pos, 3
    {
      var first := Prefix(s);
      if first.node.None? then first else Operators(first.node.value, minimum, first.st)
    }

    // The loop of Expression: `left` has been read, operators follow.
    function Operators(left: Node, minimum: int, s: State): (p: Parse)
      requires Valid() && Ready(s) && Refs(left) <= s.deps
      ensures Kept(s, p.st) && p.st.binds == s.binds
      ensures p.node.Some? ==> p.st.pos < |tokens| && Refs(p.node.value) <= p.st.deps
      decreases |tokens| - s.pos, 4
    {
      if !Tok(s).TOp? || Precedence(Tok(s).op) < minimum then Done(left, s)
      else
        var op := Tok(s).op;
        var right := Expression(RightMinimum(op), Advance(s));
        if right.node.None? then right else Operators(Binary(op, left, right.node.value), minimum, right.st)
    }

    function Prefix(s: State): (p: Parse)
      requires Valid() && Ready(s)
      ensures Sound(s, p)
      decreases |tokens| - s.pos, 2
    {
      if Tok(s) == TOp("+") || Tok(s) == TOp("-") then
        var p := Prefix(Advance(s));
        if p.node.None? then p else Done(Unary(Tok(s).op, p.node.value), p.st)
      else Primary(s)
    }

    function Primary(s: State): (p: Parse)
      requires Valid() && Ready(s)
      ensures Sound(s, p)
      decreases |tokens| - s.pos, 1
    {
      var s1 := Advance(s);
      match Tok(s)
      case TWhole(n) =>
        if Tok(s1).TColon? && IsNumber(tokens[s1.pos + 1]) && AsRow(Tok(s)).Some? then RowBand("", n, s1)
        else Done(Literal(Number(n as real)), s1)
      case TDecimal(r) => Done(Literal(Number(r)), s1)
      case TText(text) => Done(Literal(Str(text)), s1)
      case TError(code) => Done(ErrorLiteral(code), s1)
      case TLeft => Close(Expression(0, s1))
      case TOpen => ArrayRows([], [], s1)
      case TQuoted(sheet) => if Tok(s1).TBang? then Qualified(sheet, Advance(s1)) else Fail(s1)
      case TName(name) =>
        if Tok(s1).TBang? then Qualified(name, Advance(s1))
        else if Tok(s1).TLeft? then Named(scope.canonical(name), s1)
        else PlainName(name, s1)
      case _ => Fail(s1)
    }

    // Expects the closing parenthesis.
    function Close(p: Parse): (q: Parse)
      requires Valid() && (p.node.Some? ==> Ready(p.st))
      ensures q.st == p.st.(pos := q.st.pos) && p.st.pos <= q.st.pos
      ensures q.node.Some? ==> q.node == p.node && q.st.pos == p.st.pos + 1 && Ready(q.st)
      ensures q.node.None? ==> q.st == p.st
    {
      if p.node.None? then p
      else if Tok(p.st).TRight? then Parse(p.node, Advance(p.st))
      else Fail(p.st)
    }

    // `name(`, with the cursor on the parenthesis.
    function Named(name: string, s: State): (p: Parse)
      requires Valid() && Ready(s) && Tok(s).TLeft?
      ensures Sound(s, p)
      decreases |tokens| - s.pos, 1
    {
      var s1 := Advance(s);
      if name == "LET" then
        var p := LetSteps(s1.unused, [], s1.(unused := s1.unused + 1));
        Parse(p.node, p.st.(binds := p.st.binds[..|s.binds|]))
      else if name == "LAMBDA" then
        var p := LambdaParts(s1.unused, 0, s1.(unused := s1.unused + 1));
        var q := Parse(p.node, p.st.(binds := p.st.binds[..|s.binds|]));
        if q.node.None? then q else Callable(q.node.value, q.st)
      else if Lookup(s.binds, name).Some? then Callable(Lookup(s.binds, name).value, s)
      else
        var list := if Tok(s1).TRight? then ParseList(Some([]), s1) else Arguments([], s1);
        if list.nodes.None? then Fail(list.st)
        else if !Tok(list.st).TRight? then Fail(list.st)
        else Finish(name, list.nodes.value, Advance(list.st))
    }

    function Finish(name: string, args: seq<Node>, s: State): (p: Parse)
      requires RefsAll(args) <= s.deps
      ensures p.st == s.(deps := p.st.deps) && s.deps <= p.st.deps
      ensures p.node.Some? ==> Refs(p.node.value) <= p.st.deps
    {
      if IsReferenceFunction(name) then ReferenceFunction(scope, name, args, s)
      else if name == "TRUE" then Done(Literal(Boolean(true)), s)
      else if name == "FALSE" then Done(Literal(Boolean(false)), s)
      else Done(Call(name, args), s)
    }

    // The argument loop of an ordinary call; an empty slot is an omission.
    function Arguments(done: seq<Node>, s: State): (p: ParseList)
      requires Valid() && Ready(s) && RefsAll(done) <= s.deps
      ensures Kept(s, p.st) && p.st.binds == s.binds
      ensures p.nodes.Some? ==> p.st.pos < |tokens| && RefsAll(p.nodes.value) <= p.st.deps
      decreases |tokens| - s.pos, 4
    {
      RefsAllAppend(done, Literal(Omitted));
      if IsSeparator(Tok(s)) then Arguments(done + [Literal(Omitted)], Advance(s))
      else if Tok(s).TRight? then ParseList(Some(done + [Literal(Omitted)]), s)
      else
        var p := Expression(0, s);
        if p.node.None? then ParseList(None, p.st)
        else
          RefsAllAppend(done, p.node.value);
          if IsSeparator(Tok(p.st)) then Arguments(done + [p.node.value], Advance(p.st))
          else ParseList(Some(done + [p.node.value]), p.st)
    }

    // The argument loop of a called LAMBDA: every slot must be filled.
    function Operands(done: seq<Node>, s: State): (p: ParseList)
      requires Valid() && Ready(s) && RefsAll(done) <= s.deps
      ensures Kept(s, p.st) && p.st.binds == s.binds
      ensures p.nodes.Some? ==> s.pos < p.st.pos < |tokens| && RefsAll(p.nodes.value) <= p.st.deps
      decreases |tokens| - s.pos, 4
    {
      var p := Expression(0, s);
      if p.node.None? then ParseList(None, p.st)
      else
        RefsAllAppend(done, p.node.value);
        if IsSeparator(Tok(p.st)) then Operands(done + [p.node.value], Advance(p.st))
        else ParseList(Some(done + [p.node.value]), p.st)
    }

    // `target`, and the call that may follow it on the spot.
    function Callable(target: Node, s: State): (p: Parse)
      requires Valid() && Ready(s) && Refs(target) <= s.deps
      ensures Kept(s, p.st) && p.st.binds == s.binds
      ensures p.node.Some? ==> p.st.pos < |tokens| && Refs(p.node.value) <= p.st.deps
      ensures Tok(s).TLeft? && p.node.Some? ==> s.pos < p.st.pos
      decreases |tokens| - s.pos, 0
    {
      if !Tok(s).TLeft? then Done(target, s)
      else
        var s1 := Advance(s);
        var list := if Tok(s1).TRight? then ParseList(Some([]), s1) else Operands([], s1);
        if list.nodes.None? then Fail(list.st)
        else if !Tok(list.st).TRight? then Fail(list.st)
        else Done(Apply(target, list.nodes.value), Advance(list.st))
    }

    // One `name, value,` of a LET; the name is in scope afterwards.
    function LetBinding(frame: nat, index: nat, s: State): (p: Parse)
      requires Valid() && Ready(s)
      ensures Kept(s, p.st) && s.binds <= p.st.binds
      ensures p.node.Some? ==> s.pos < p.st.pos < |tokens| && Refs(p.node.value) <= p.st.deps
      decreases |tokens| - s.pos, 4
    {
      if !Tok(s).TName? || ParseCell(Tok(s).name).Some? then Fail(s)
      else
        var s1 := Advance(s);
        if !IsSeparator(Tok(s1)) then Fail(s1)
        else
          var value := Expression(0, Advance(s1));
          if value.node.None? then value
          else
            var s2 := value.st.(binds := value.st.binds + [Binding(Tok(s).name, frame, index)]);
            if !IsSeparator(Tok(s2)) then Fail(s2) else Parse(value.node, Advance(s2))
    }

    // LET: name, value pairs, then the calculation.  Each value sees the names
    // before it.  The names are taken out of scope again by the caller.
    function LetSteps(frame: nat, values: seq<Node>, s: State): (p: Parse)
      requires Valid() && Ready(s) && RefsAll(values) <= s.deps
      ensures Kept(s, p.st) && s.binds <= p.st.binds
      ensures p.node.Some? ==> s.pos < p.st.pos < |tokens| && Refs(p.node.value) <= p.st.deps
      decreases |tokens| - s.pos, 5
    {
      var value := LetBinding(frame, |values|, s);
      if value.node.None? then value
      else
        RefsAllAppend(values, value.node.value);
        var values' := values + [value.node.value];
        if StartsBindingName(value.st) then LetSteps(frame, values', value.st)
        else
          var body := Close(Expression(0, value.st));
          if body.node.None? then body else Done(Let(frame, values', body.node.value), body.st)
    }

    function LambdaParts(frame: nat, arity: nat, s: State): (p: Parse)
      requires Valid() && Ready(s)
      ensures Kept(s, p.st) && s.binds <= p.st.binds
      ensures p.node.Some? ==> s.pos < p.st.pos < |tokens| && Refs(p.node.value) <= p.st.deps
      decreases |tokens| - s.pos, 4
    {
      if StartsBindingName(s) then
        LambdaParts(frame, arity + 1,
                    Advance(Advance(s)).(binds := s.binds + [Binding(Tok(s).name, frame, arity)]))
      else
        var body := Close(Expression(0, s));
        if body.node.None? then body else Done(Lambda(frame, arity, body.node.value), body.st)
    }

    // The loop of an array literal: `rows` are complete, `row` is being read.
    function ArrayRows(rows: seq<seq<Node>>, row: seq<Node>, s: State): (p: Parse)
      requires Valid() && Ready(s)
      requires RefsAll(row) <= s.deps && forall r :: r in rows ==> RefsAll(r) <= s.deps
      ensures Kept(s, p.st) && p.st.binds == s.binds
      ensures p.node.Some? ==> s.pos < p.st.pos < |tokens| && Refs(p.node.value) <= p.st.deps
      ensures p.node.Some? ==> FullArray(p.node.value)
      decreases |tokens| - s.pos, 4
    {
      if Tok(s).TClose? then ArrayEnd(rows, Advance(s))
      else
        var item := Expression(0, s);
        if item.node.None? then item
        else
          RefsAllAppend(row, item.node.value);
          var row' := row + [item.node.value];
          match Tok(item.st)
          case TComma => ArrayRows(rows, row', Advance(item.st))
          case TSemicolon => ArrayRows(rows + [row'], [], Advance(item.st))
          case TClose => ArrayEnd(rows + [row'], Advance(item.st))
          case _ => Fail(item.st)
    }

    function ArrayEnd(rows: seq<seq<Node>>, s: State): (p: Parse)
      requires forall r :: r in rows ==> RefsAll(r) <= s.deps
      ensures p.st == s
      ensures p.node.Some? ==> Refs(p.node.value) <= s.deps && FullArray(p.node.value)
    {
      if rows == [] || rows[0] == [] || (exists r :: r in rows && |r| != |rows[0]|)
         || |rows| * |rows[0]| > MAX_RANGE_CELLS
      then Fail(s)
      else
        RefsFlatten(rows, s.deps);
        FlattenLength(rows, |rows[0]|);
        Done(ArrayLit(|rows|, |rows[0]|, Flatten(rows)), s)
    }

    // A whole formula: one expression and nothing after it.
    function Formula(): (p: Parse)
      requires Valid()
      ensures Sound(State(0, {}, [], 0), p)
    {
      var p := Expression(0, State(0, {}, [], 0));
      if p.node.Some? && !Tok(p.st).TEnd? then Fail(p.st) else p
    }
  }
}
