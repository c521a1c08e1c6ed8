/**
  Writing a tree with as few parentheses as the grammar allows, and the proof
  that parsing what was written gives the tree back.
*/
module Printer {
  import opened CellAddress
  import opened FormulaSyntax
  import opened Grammar

  const UNARY_LEVEL := 6
  const ATOM_LEVEL := 7

  // How tightly a tree holds together when written bare.
  function Level(t: Node): int {
    match t
    case Binary(op, _, _) => Precedence(op)
    case Unary(_, _) => UNARY_LEVEL
    case _ => ATOM_LEVEL
  }

  function LeftMinimum(op: string): int {
    if op == "^" then UNARY_LEVEL else Precedence(op)
  }

  // A number token never carries a sign.
  function NumberToken(r: real): Token
    requires r >= 0.0
  {
    if r.Floor as real == r then TWhole(r.Floor) else TDecimal(r)
  }

  function RangeBounds(n: Node): Rect
    requires n.Range? && n.cells != []
  {
    var c := n.cells[0];
    Rect(c.row, c.column, c.row + n.rows - 1, c.column + n.columns - 1)
  }

  predicate PrintableRange(n: Node)
    requires n.Range?
  {
    && n.cells != []
    && var rect := RangeBounds(n);
    && Proper(rect)
    && 1 < CellCount(rect) <= MAX_RANGE_CELLS
    && n.cells == RectCells(n.cells[0].sheet, rect)
    && OnSheet(n.cells[0])
    && rect.lastRow <= MAX_ROWS && rect.lastColumn <= MAX_COLUMNS
  }

  // A sheet has a name the parser resolves back to it.
  predicate Nameable(scope: Scope, sheetName: string -> string, sheet: string) {
    sheet == scope.currentSheet || (sheetName(sheet) != "" && scope.sheetOf(sheetName(sheet)) == Some(sheet))
  }

  // A name that stands for an ordinary function when called.
  predicate PlainFunction(scope: Scope, name: string) {
    && scope.canonical(name) == name
    && name !in {"LET", "LAMBDA", "TRUE", "FALSE"}
    && !IsReferenceFunction(name)
  }

  // The trees a formula without LET, LAMBDA, array literals or dynamic
  // references parses to.  A call whose only argument is an omission is left
  // out: `F()` reads as a call with no arguments.
  predicate Printable(scope: Scope, sheetName: string -> string, t: Node) {
    match t
    case Literal(Number(r)) => r >= 0.0
    case Literal(v) => v.Boolean? || v.Str?
    case ErrorLiteral(_) => true
    case Reference(c) => OnSheet(c) && Nameable(scope, sheetName, c.sheet)
    case Range(_, _, _) => PrintableRange(t) && Nameable(scope, sheetName, t.cells[0].sheet)
    case Unary(op, operand) => op in {"+", "-"} && Printable(scope, sheetName, operand)
    case Binary(op, left, right) =>
      Precedence(op) >= 1 && Printable(scope, sheetName, left) && Printable(scope, sheetName, right)
    case Call(name, args) =>
      && PlainFunction(scope, name)
      && args != [Literal(Omitted)]
      && forall a :: a in args ==> a == Literal(Omitted) || Printable(scope, sheetName, a)
    case _ => false
  }

  function SheetPrefix(scope: Scope, sheetName: string -> string, sheet: string): seq<Token> {
    if sheet == scope.currentSheet then [] else [TQuoted(sheetName(sheet)), TBang]
  }

  // The tree without parentheses around it.
  function Bare(scope: Scope, sheetName: string -> string, t: Node): seq<Token>
    requires Printable(scope, sheetName, t)
    decreases t, 0
  {
    match t
    case Literal(Number(r)) => [NumberToken(r)]
    case Literal(Str(text)) => [TText(text)]
    case Literal(Boolean(flag)) => [TName(if flag then "TRUE" else "FALSE")]
    case ErrorLiteral(code) => [TError(code)]
    case Reference(c) => SheetPrefix(scope, sheetName, c.sheet) + [TName(AddressText(c.row, c.column))]
    case Range(_, _, cells) =>
      var rect := RangeBounds(t);
      SheetPrefix(scope, sheetName, cells[0].sheet)
      + [TName(AddressText(rect.firstRow, rect.firstColumn)), TColon, TName(AddressText(rect.lastRow, rect.lastColumn))]
    case Unary(op, operand) => [TOp(op)] + Print(scope, sheetName, operand, UNARY_LEVEL)
    case Binary(op, left, right) =>
      Print(scope, sheetName, left, LeftMinimum(op)) + [TOp(op)] + Print(scope, sheetName, right, RightMinimum(op))
    case Call(name, args) => [TName(name), TLeft] + PrintArgs(scope, sheetName, args) + [TRight]
  }

  // Parentheses are added only when the tree is looser than its place demands.
  function Print(scope: Scope, sheetName: string -> string, t: Node, minimum: int): seq<Token>
    requires Printable(scope, sheetName, t)
    decreases t, 1
  {
    if Level(t) < minimum then [TLeft] + Bare(scope, sheetName, t) + [TRight] else Bare(scope, sheetName, t)
  }

  function PrintArg(scope: Scope, sheetName: string -> string, a: Node): seq<Token>
    requires a == Literal(Omitted) || Printable(scope, sheetName, a)
    decreases a, 2
  {
    if a == Literal(Omitted) then [] else Bare(scope, sheetName, a)
  }

  function PrintArgs(scope: Scope, sheetName: string -> string, args: seq<Node>): seq<Token>
    requires forall a :: a in args ==> a == Literal(Omitted) || Printable(scope, sheetName, a)
    decreases args, 3
  {
    if args == [] then []
    else if |args| == 1 then PrintArg(scope, sheetName, args[0])
    else PrintArg(scope, sheetName, args[0]) + [TComma] + PrintArgs(scope, sheetName, args[1..])
  }

  // What may stand right after a printed tree.
  predicate Follows(t: Token) { t.TOp? || t.TRight? || IsSeparator(t) || t.TEnd? }

  predicate Starts(t: Token) { !t.TRight? && !IsSeparator(t) }

  lemma {:induction false} BareStarts(scope: Scope, sheetName: string -> string, t: Node)
    requires Printable(scope, sheetName, t)
    ensures Bare(scope, sheetName, t) != [] && Starts(Bare(scope, sheetName, t)[0])
  {
    if t.Binary? {
      BareStarts(scope, sheetName, t.left);
    }
  }

  // Written at the cursor, with at least one token after it.
  ghost predicate At(src: Source, s: State, ts: seq<Token>) {
    s.pos + |ts| < |src.tokens| && src.tokens[s.pos..s.pos + |ts|] == ts
  }

  lemma AtParts(src: Source, s: State, a: seq<Token>, b: seq<Token>)
    requires At(src, s, a + b)
    ensures At(src, s, a) && At(src, s.(pos := s.pos + |a|), b)
    ensures s.pos + |a| + |b| < |src.tokens|
    ensures b != [] ==> src.tokens[s.pos + |a|] == b[0]
    ensures a != [] ==> src.tokens[s.pos] == a[0]
  {
    var ts := src.tokens[s.pos..s.pos + |a + b|];
    assert ts[..|a|] == a && ts[|a|..] == b;
  }

  lemma AtMoved(src: Source, s: State, s': State, ts: seq<Token>)
    requires At(src, s, ts) && s.pos == s'.pos
    ensures At(src, s', ts)
  {
  }

  function After(s: State, ts: seq<Token>, t: Node): State {
    s.(pos := s.pos + |ts|, deps := s.deps + Refs(t))
  }

  // An operator that would be swallowed by the tree's own right operand.
  predicate Stops(t: Node, minimum: int, next: Token) {
    Follows(next) && (next.TOp? && t.Binary? && Level(t) >= minimum ==> Precedence(next.op) < RightMinimum(t.op))
  }

  // -------- one grammar step at a time --------

  lemma StopOperators(src: Source, left: Node, minimum: int, s: State)
    requires src.Valid() && src.Ready(s) && Refs(left) <= s.deps
    requires src.Tok(s).TOp? ==> Precedence(src.Tok(s).op) < minimum
    ensures src.Operators(left, minimum, s) == Done(left, s)
  {
  }

  lemma StepOperators(src: Source, left: Node, minimum: int, s: State, right: Parse)
    requires src.Valid() && src.Ready(s) && Refs(left) <= s.deps
    requires src.Tok(s).TOp? && Precedence(src.Tok(s).op) >= minimum
    requires right == src.Expression(RightMinimum(src.Tok(s).op), Advance(s)) && right.node.Some?
    ensures src.Operators(left, minimum, s)
         == src.Operators(Binary(src.Tok(s).op, left, right.node.value), minimum, right.st)
  {
    hide Source.Expression;
  }

  lemma StepExpression(src: Source, minimum: int, s: State, first: Parse)
    requires src.Valid() && src.Ready(s) && first == src.Prefix(s) && first.node.Some?
    ensures src.Expression(minimum, s) == src.Operators(first.node.value, minimum, first.st)
  {
    hide Source.Prefix, Source.Operators;
  }

  lemma StepUnary(src: Source, s: State, operand: Parse)
    requires src.Valid() && src.Ready(s) && (src.Tok(s) == TOp("+") || src.Tok(s) == TOp("-"))
    requires operand == src.Prefix(Advance(s)) && operand.node.Some?
    ensures src.Prefix(s) == Done(Unary(src.Tok(s).op, operand.node.value), operand.st)
  {
    hide Source.Primary;
  }

  lemma StepParenthesis(src: Source, s: State, inner: Parse)
    requires src.Valid() && src.Ready(s) && src.Tok(s).TLeft?
    requires inner == src.Expression(0, Advance(s)) && inner.node.Some? && src.Tok(inner.st).TRight?
    ensures src.Prefix(s) == Parse(inner.node, Advance(inner.st))
  {
    hide Source.Expression, Source.Named, Source.ArrayRows, Source.Qualified, Source.PlainName;
  }

  lemma StepCell(src: Source, s: State)
    requires src.Valid() && src.Ready(s) && s.binds == []
    requires src.Tok(s).TName? && ParseCell(src.Tok(s).name).Some?
    requires src.tokens[s.pos + 1].TColon? || Follows(src.tokens[s.pos + 1])
    ensures src.Prefix(s) == src.CellReference("", src.Tok(s).name, Advance(s))
  {
    hide Source.CellReference, Source.Expression, Source.Named, Source.ArrayRows, Source.Qualified, Source.RowBand, ParseCell, ParseColumn;
    NotKeywords();
    var name, s1 := src.Tok(s).name, Advance(s);
    assert src.PlainName(name, s1) == src.CellReference("", name, s1);
    assert src.Primary(s) == src.PlainName(name, s1);
  }

  lemma StepSheetCell(src: Source, s: State)
    requires src.Valid() && src.Ready(s) && s.pos + 3 < |src.tokens|
    requires src.Tok(s).TQuoted? && src.tokens[s.pos + 1].TBang? && src.tokens[s.pos + 2].TName?
    ensures src.Prefix(s)
         == src.CellReference(src.Tok(s).sheet, src.tokens[s.pos + 2].name, s.(pos := s.pos + 3))
  {
    hide Source.CellReference, Source.Expression, Source.Named, Source.ArrayRows, Source.PlainName;
  }

  lemma StepCall(src: Source, s: State, list: ParseList)
    requires src.Valid() && src.Ready(s) && s.binds == [] && s.pos + 2 < |src.tokens|
    requires src.Tok(s).TName? && src.tokens[s.pos + 1].TLeft? && PlainFunction(src.scope, src.Tok(s).name)
    requires var s2 := Advance(Advance(s));
             list == if src.Tok(s2).TRight? then ParseList(Some([]), s2) else src.Arguments([], s2)
    requires list.nodes.Some? && src.Ready(list.st) && src.Tok(list.st).TRight?
    requires RefsAll(list.nodes.value) <= list.st.deps
    ensures src.Prefix(s) == Done(Call(src.Tok(s).name, list.nodes.value), Advance(list.st))
  {
    hide Source.Arguments, Source.Expression, Source.ArrayRows, Source.PlainName, Source.Qualified,
      Source.LetSteps, Source.LambdaParts, Source.Callable;
    var s1 := Advance(s);
    assert src.Prefix(s) == src.Primary(s) == src.Named(src.Tok(s).name, s1);
  }

  lemma StepAtom(src: Source, sheetName: string -> string, t: Node, s: State)
    requires src.Valid() && src.Ready(s) && (t.Literal? || t.ErrorLiteral?) && Printable(src.scope, sheetName, t)
    requires src.Tok(s) == Bare(src.scope, sheetName, t)[0] && Follows(src.tokens[s.pos + 1])
    ensures src.Prefix(s) == Done(t, Advance(s))
  {
    hide Source.Expression, Source.Named, Source.ArrayRows, Source.Qualified, Source.RowBand, Source.CellReference;
  }

  lemma NotKeywords()
    ensures ParseCell("TRUE") == None && ParseCell("FALSE") == None
  {
    LetterCountOf("TRUE", "");
    LetterCountOf("FALSE", "");
    assert "TRUE" + "" == "TRUE" && "FALSE" + "" == "FALSE";
  }

  // -------- reading back --------

  // The address part of a reference or range, cursor past its first name.
  lemma CellReferenceBack(src: Source, t: Node, sheet: string, qualifier: string, rect: Rect, s: State)
    requires src.Valid() && src.Ready(s) && SheetFor(src.scope, qualifier) == Some(sheet)
    requires Proper(rect) && 1 <= rect.firstRow && 1 <= rect.firstColumn
    requires rect.lastRow <= MAX_ROWS && rect.lastColumn <= MAX_COLUMNS
    requires t.Reference? ==>
               t.cell == Cell(sheet, rect.firstRow, rect.firstColumn) && Follows(src.Tok(s))
    requires t.Reference? || (t.Range? && PrintableRange(t) && RangeBounds(t) == rect && t.cells[0].sheet == sheet)
    requires t.Range? ==>
               s.pos + 2 < |src.tokens| && src.Tok(s).TColon?
               && src.tokens[s.pos + 1] == TName(AddressText(rect.lastRow, rect.lastColumn))
    ensures src.CellReference(qualifier, AddressText(rect.firstRow, rect.firstColumn), s)
         == Done(t, s.(pos := s.pos + if t.Range? then 2 else 0, deps := s.deps + Refs(t)))
  {
    hide AddressText, ParseCell, ParseColumn, RectCells;
    AddressRoundTrip(rect.firstRow, rect.firstColumn);
    AddressRoundTrip(rect.lastRow, rect.lastColumn);
  }

  function AddressTokens(range: bool, rect: Rect): seq<Token>
    requires 1 <= rect.firstRow <= rect.lastRow && 1 <= rect.firstColumn <= rect.lastColumn
  {
    [TName(AddressText(rect.firstRow, rect.firstColumn))]
    + if range then [TColon, TName(AddressText(rect.lastRow, rect.lastColumn))] else []
  }

  // The same with the cursor on the first name.
  lemma AddressBack(src: Source, t: Node, sheet: string, qualifier: string, rect: Rect, s: State)
    requires src.Valid() && SheetFor(src.scope, qualifier) == Some(sheet)
    requires 1 <= rect.firstRow <= rect.lastRow <= MAX_ROWS && 1 <= rect.firstColumn <= rect.lastColumn <= MAX_COLUMNS
    requires At(src, s, AddressTokens(t.Range?, rect))
    requires t.Reference? ==>
               t.cell == Cell(sheet, rect.firstRow, rect.firstColumn) && Follows(src.tokens[s.pos + 1])
    requires t.Reference? || (t.Range? && PrintableRange(t) && RangeBounds(t) == rect && t.cells[0].sheet == sheet)
    ensures src.Tok(s) == TName(AddressText(rect.firstRow, rect.firstColumn))
    ensures ParseCell(src.Tok(s).name).Some?
    ensures t.Range? ==> src.tokens[s.pos + 1].TColon?
    ensures src.CellReference(qualifier, src.Tok(s).name, Advance(s))
         == Done(t, s.(pos := s.pos + |AddressTokens(t.Range?, rect)|, deps := s.deps + Refs(t)))
  {
    hide Source.CellReference, AddressText, ParseCell, PrintableRange;
    AddressRoundTrip(rect.firstRow, rect.firstColumn);
    var address := AddressTokens(t.Range?, rect);
    AtParts(src, s, [address[0]], address[1..]);
    if t.Range? {
      AtParts(src, Advance(s), [address[1]], [address[2]]);
    }
    CellReferenceBack(src, t, sheet, qualifier, rect, Advance(s));
  }

  lemma ReferenceBack(src: Source, sheetName: string -> string, t: Node, s: State)
    requires src.Valid() && s.binds == [] && (t.Reference? || t.Range?) && Printable(src.scope, sheetName, t)
    requires At(src, s, Bare(src.scope, sheetName, t))
    requires Follows(src.tokens[s.pos + |Bare(src.scope, sheetName, t)|])
    ensures src.Prefix(s) == Done(t, After(s, Bare(src.scope, sheetName, t), t))
  {
    hide Source.Prefix, Source.CellReference, AddressText, RectCells, At, Bare, Printable, Refs, AddressTokens;
    ReferenceLayout(src.scope, sheetName, t);
    var (sheet, rect) := Area(t);
    var prefix := SheetPrefix(src.scope, sheetName, sheet);
    AtParts(src, s, prefix, AddressTokens(t.Range?, rect));
    if prefix == [] {
      AddressBack(src, t, sheet, "", rect, s);
      StepCell(src, s);
    } else {
      AtParts(src, s, [prefix[0]], [prefix[1]]);
      AddressBack(src, t, sheet, sheetName(sheet), rect, s.(pos := s.pos + 2));
      StepSheetCell(src, s);
    }
  }

  function Area(t: Node): (string, Rect)
    requires t.Reference? || (t.Range? && t.cells != [])
  {
    if t.Reference? then (t.cell.sheet, Rect(t.cell.row, t.cell.column, t.cell.row, t.cell.column))
    else (t.cells[0].sheet, RangeBounds(t))
  }

  lemma ReferenceLayout(scope: Scope, sheetName: string -> string, t: Node)
    requires (t.Reference? || t.Range?) && Printable(scope, sheetName, t)
    ensures t.Range? ==> t.cells != [] && PrintableRange(t)
    ensures var (sheet, rect) := Area(t);
            && 1 <= rect.firstRow <= rect.lastRow <= MAX_ROWS && 1 <= rect.firstColumn <= rect.lastColumn <= MAX_COLUMNS
            && Bare(scope, sheetName, t) == SheetPrefix(scope, sheetName, sheet) + AddressTokens(t.Range?, rect)
            && |AddressTokens(t.Range?, rect)| == (if t.Range? then 3 else 1)
            && Nameable(scope, sheetName, sheet)
  {
  }

  // A tree written tightly enough to be an operand is read by Prefix alone.
  lemma {:induction false} PrefixBack(src: Source, sheetName: string -> string, t: Node, s: State)
    requires src.Valid() && s.binds == [] && Printable(src.scope, sheetName, t)
    requires At(src, s, Print(src.scope, sheetName, t, UNARY_LEVEL))
    requires Follows(src.tokens[s.pos + |Print(src.scope, sheetName, t, UNARY_LEVEL)|])
    ensures src.Prefix(s) == Done(t, After(s, Print(src.scope, sheetName, t, UNARY_LEVEL), t))
    decreases t, 1, 0
  {
    hide Source.Prefix;
    if t.Binary? {
      ParenthesisBack(src, sheetName, t, s);
    } else if t.Unary? {
      UnaryBack(src, sheetName, t, s);
    } else if t.Reference? || t.Range? {
      ReferenceBack(src, sheetName, t, s);
    } else if t.Call? {
      CallBack(src, sheetName, t, s);
    } else {
      BareHead(src, sheetName, t, s);
      StepAtom(src, sheetName, t, s);
    }
  }

  lemma {:induction false} ParenthesisBack(src: Source, sheetName: string -> string, t: Node, s: State)
    requires src.Valid() && s.binds == [] && t.Binary? && Printable(src.scope, sheetName, t)
    requires At(src, s, [TLeft] + Bare(src.scope, sheetName, t) + [TRight])
    ensures src.Prefix(s) == Done(t, After(s, [TLeft] + Bare(src.scope, sheetName, t) + [TRight], t))
    decreases t, 0, 2
  {
    hide Source.Prefix, Source.Expression, Source.Operators, At, Bare, Printable, Refs;
    var bare := Bare(src.scope, sheetName, t);
    BinaryLayout(src.scope, sheetName, t);
    assert [TLeft] + (bare + [TRight]) == [TLeft] + bare + [TRight];
    AtParts(src, s, [TLeft], bare + [TRight]);
    var s1 := Advance(s);
    AtParts(src, s1, bare, [TRight]);
    BinaryBack(src, sheetName, t, 0, s1);
    StopOperators(src, t, 0, After(s1, bare, t));
    StepParenthesis(src, s, Done(t, After(s1, bare, t)));
  }

  lemma {:induction false} UnaryBack(src: Source, sheetName: string -> string, t: Node, s: State)
    requires src.Valid() && s.binds == [] && t.Unary? && Printable(src.scope, sheetName, t)
    requires At(src, s, Bare(src.scope, sheetName, t))
    requires Follows(src.tokens[s.pos + |Bare(src.scope, sheetName, t)|])
    ensures src.Prefix(s) == Done(t, After(s, Bare(src.scope, sheetName, t), t))
    decreases t, 0, 0
  {
    hide Source.Prefix;
    var operand := Print(src.scope, sheetName, t.operand, UNARY_LEVEL);
    assert Bare(src.scope, sheetName, t) == [TOp(t.op)] + operand;
    AtParts(src, s, [TOp(t.op)], operand);
    PrefixBack(src, sheetName, t.operand, Advance(s));
    StepUnary(src, s, Done(t.operand, After(Advance(s), operand, t.operand)));
  }

  lemma BareHead(src: Source, sheetName: string -> string, t: Node, s: State)
    requires Printable(src.scope, sheetName, t) && At(src, s, Bare(src.scope, sheetName, t))
    ensures Bare(src.scope, sheetName, t) != [] && src.tokens[s.pos] == Bare(src.scope, sheetName, t)[0]
  {
    BareStarts(src.scope, sheetName, t);
    assert src.tokens[s.pos..s.pos + |Bare(src.scope, sheetName, t)|][0] == src.tokens[s.pos];
  }

  lemma {:induction false} CallBack(src: Source, sheetName: string -> string, t: Node, s: State)
    requires src.Valid() && s.binds == [] && t.Call? && Printable(src.scope, sheetName, t)
    requires At(src, s, Bare(src.scope, sheetName, t))
    ensures src.Prefix(s) == Done(t, After(s, Bare(src.scope, sheetName, t), t))
    decreases t, 0, |t.args| + 1
  {
    hide Source.Prefix, Source.Arguments, Bare, Printable, RefsAll, PrintArgs;
    CallLayout(src.scope, sheetName, t);
    var inner := PrintArgs(src.scope, sheetName, t.args);
    AtParts(src, s, [TName(t.name)], [TLeft] + (inner + [TRight]));
    var s1 := Advance(s);
    AtParts(src, s1, [TLeft], inner + [TRight]);
    var s2 := Advance(s1);
    AtParts(src, s2, inner, [TRight]);
    var list := ParseList(Some(t.args), s2.(pos := s2.pos + |inner|, deps := s2.deps + RefsAll(t.args)));
    if t.args != [] {
      assert t.args[0..] == t.args && t.args[..0] == [];
      ArgumentsBack(src, sheetName, t, 0, s2);
      ArgsStart(src.scope, sheetName, t.args);
      assert src.tokens[s2.pos..s2.pos + |inner|][0] == src.tokens[s2.pos];
    }
    StepCall(src, s, list);
  }

  lemma CallLayout(scope: Scope, sheetName: string -> string, t: Node)
    requires t.Call? && Printable(scope, sheetName, t)
    ensures PlainFunction(scope, t.name) && t.args != [Literal(Omitted)]
    ensures forall a :: a in t.args ==> a == Literal(Omitted) || Printable(scope, sheetName, a)
    ensures t.args == [] ==> PrintArgs(scope, sheetName, t.args) == []
    ensures Bare(scope, sheetName, t)
         == [TName(t.name)] + ([TLeft] + (PrintArgs(scope, sheetName, t.args) + [TRight]))
    ensures RefsAll([]) == {}
  {
  }

  lemma ArgsStart(scope: Scope, sheetName: string -> string, args: seq<Node>)
    requires args != [] && args != [Literal(Omitted)]
    requires forall a :: a in args ==> a == Literal(Omitted) || Printable(scope, sheetName, a)
    ensures PrintArgs(scope, sheetName, args) != [] && !PrintArgs(scope, sheetName, args)[0].TRight?
  {
    if args[0] == Literal(Omitted) {
      assert |args| > 1;
    } else {
      BareStarts(scope, sheetName, args[0]);
    }
  }

  lemma StepArgument(src: Source, done: seq<Node>, s: State, a: Node, after: State)
    requires src.Valid() && src.Ready(s) && src.Ready(after) && RefsAll(done) <= s.deps
    requires RefsAll(done + [a]) <= after.deps
    requires if a == Literal(Omitted) then after == s && (IsSeparator(src.Tok(s)) || src.Tok(s).TRight?)
             else Starts(src.Tok(s)) && src.Expression(0, s) == Done(a, after)
    ensures src.Arguments(done, s)
         == if IsSeparator(src.Tok(after)) then src.Arguments(done + [a], Advance(after))
            else ParseList(Some(done + [a]), after)
  {
    hide Source.Expression;
  }

  lemma {:induction false} ArgumentsBack(src: Source, sheetName: string -> string, t: Node, k: nat, s: State)
    requires src.Valid() && s.binds == [] && t.Call? && Printable(src.scope, sheetName, t) && k < |t.args|
    requires RefsAll(t.args[..k]) <= s.deps
    requires At(src, s, PrintArgs(src.scope, sheetName, t.args[k..]))
    requires src.tokens[s.pos + |PrintArgs(src.scope, sheetName, t.args[k..])|] == TRight
    ensures src.Arguments(t.args[..k], s)
         == ParseList(Some(t.args),
                      s.(pos := s.pos + |PrintArgs(src.scope, sheetName, t.args[k..])|,
                      deps := s.deps + RefsAll(t.args[k..])))
    decreases t, 0, |t.args| - k
  {
    hide Source.Arguments, Source.Expression, Source.Operators, PrintArgs, PrintArg, RefsAll, Refs, At, Printable;
    var a, args := t.args[k], t.args;
    CallLayout(src.scope, sheetName, t);
    var printed := PrintArg(src.scope, sheetName, a);
    var after := s.(pos := s.pos + |printed|, deps := s.deps + Refs(a));
    ArgsSlices(src.scope, sheetName, args, k);
    var rest := PrintArgs(src.scope, sheetName, args[k + 1..]);
    ArgumentTokens(src, s, printed, rest, k + 1 == |args|);
    ArgumentBack(src, sheetName, t, a, s);
    OmittedIsNothing(src.scope, sheetName);
    StepArgument(src, args[..k], s, a, after);
    assert s.deps + Refs(a) + RefsAll(args[k + 1..]) == s.deps + RefsAll(args[k..]);
    if k + 1 < |args| {
      AtMoved(src, s.(pos := after.pos + 1), Advance(after), rest);
      ArgumentsBack(src, sheetName, t, k + 1, Advance(after));
    }
  }

  lemma OmittedIsNothing(scope: Scope, sheetName: string -> string)
    ensures PrintArg(scope, sheetName, Literal(Omitted)) == []
  {
  }

  // One argument and what follows it: the next ones after a comma, or the
  // closing parenthesis.
  lemma ArgumentTokens(src: Source, s: State, printed: seq<Token>, rest: seq<Token>, last: bool)
    requires var all := printed + if last then [] else [TComma] + rest;
             At(src, s, all) && src.tokens[s.pos + |all|] == TRight
    ensures At(src, s, printed) && s.pos + |printed| < |src.tokens|
    ensures src.tokens[s.pos + |printed|] == if last then TRight else TComma
    ensures !last ==> At(src, s.(pos := s.pos + |printed| + 1), rest) && src.tokens[s.pos + |printed| + 1 + |rest|] == TRight
  {
    hide At;
    AtParts(src, s, printed, if last then [] else [TComma] + rest);
    if !last { AtParts(src, s.(pos := s.pos + |printed|), [TComma], rest); }
  }

  lemma ArgsSlices(scope: Scope, sheetName: string -> string, args: seq<Node>, k: nat)
    requires k < |args| && forall a :: a in args ==> a == Literal(Omitted) || Printable(scope, sheetName, a)
    ensures args[..k] + [args[k]] == args[..k + 1]
    ensures k + 1 == |args| ==> args[..k + 1] == args
    ensures RefsAll(args[..k + 1]) == RefsAll(args[..k]) + Refs(args[k])
    ensures RefsAll(args[k..]) == Refs(args[k]) + RefsAll(args[k + 1..])
    ensures k + 1 == |args| ==> RefsAll(args[k + 1..]) == {}
    ensures Refs(Literal(Omitted)) == {}
    ensures PrintArgs(scope, sheetName, args[k..])
         == PrintArg(scope, sheetName, args[k])
            + if k + 1 == |args| then [] else [TComma] + PrintArgs(scope, sheetName, args[k + 1..])
  {
    var a := args[k];
    assert args[..k] + [a] == args[..k + 1];
    assert args[k..][0] == a && args[k..][1..] == args[k + 1..] && args[k..] == [a] + args[k + 1..];
    RefsAllAppend(args[..k], a);
    RefsAllSplit([a], args[k + 1..]);
    assert RefsAll([a]) == Refs(a);
    assert |args[k..]| == 1 <==> k + 1 == |args|;
  }

  // One argument slot, read up to the separator or parenthesis after it.
  lemma {:induction false} ArgumentBack(src: Source, sheetName: string -> string, t: Node, a: Node, s: State)
    requires src.Valid() && s.binds == [] && t.Call? && a in t.args
    requires a == Literal(Omitted) || Printable(src.scope, sheetName, a)
    requires At(src, s, PrintArg(src.scope, sheetName, a))
    requires var next := src.tokens[s.pos + |PrintArg(src.scope, sheetName, a)|]; IsSeparator(next) || next.TRight?
    ensures a != Literal(Omitted) ==>
              && Starts(src.Tok(s))
              && src.Expression(0, s)
                 == Done(a, s.(pos := s.pos + |PrintArg(src.scope, sheetName, a)|, deps := s.deps + Refs(a)))
    decreases t, 0, 0
  {
    hide Source.Expression, Source.Operators;
    if a != Literal(Omitted) {
      BareHead(src, sheetName, a, s);
      BareStarts(src.scope, sheetName, a);
      ExpressionBack(src, sheetName, a, 0, 0, s);
      StopOperators(src, a, 0, After(s, Bare(src.scope, sheetName, a), a));
    }
  }

  // Reading a printed tree is reading its operators' loop with the tree in hand.
  lemma {:induction false} ExpressionBack(src: Source, sheetName: string -> string, t: Node, printed: int, minimum: int, s: State)
    requires src.Valid() && s.binds == [] && Printable(src.scope, sheetName, t)
    requires 0 <= minimum <= printed <= UNARY_LEVEL
    requires At(src, s, Print(src.scope, sheetName, t, printed))
    requires Stops(t, printed, src.tokens[s.pos + |Print(src.scope, sheetName, t, printed)|])
    ensures src.Expression(minimum, s)
         == src.Operators(t, minimum, After(s, Print(src.scope, sheetName, t, printed), t))
    decreases t, if t.Binary? && Level(t) >= printed then 0 else 2, 1
  {
    hide Source.Prefix, Source.Expression, Source.Operators;
    if t.Binary? && Level(t) >= printed {
      BinaryBack(src, sheetName, t, minimum, s);
    } else {
      assert Print(src.scope, sheetName, t, printed) == Print(src.scope, sheetName, t, UNARY_LEVEL);
      PrefixBack(src, sheetName, t, s);
      StepExpression(src, minimum, s, src.Prefix(s));
    }
  }

  lemma {:induction false} BinaryBack(src: Source, sheetName: string -> string, t: Node, minimum: int, s: State)
    requires src.Valid() && s.binds == [] && t.Binary? && Printable(src.scope, sheetName, t)
    requires 0 <= minimum <= Level(t)
    requires At(src, s, Bare(src.scope, sheetName, t))
    requires Stops(t, minimum, src.tokens[s.pos + |Bare(src.scope, sheetName, t)|])
    ensures src.Expression(minimum, s)
         == src.Operators(t, minimum, After(s, Bare(src.scope, sheetName, t), t))
    decreases t, 0, 0
  {
    hide Source.Prefix, Source.Expression, Source.Operators, At, Print, Bare, Printable, Refs;
    BinaryLayout(src.scope, sheetName, t);
    var left := Print(src.scope, sheetName, t.left, LeftMinimum(t.op));
    var right := Print(src.scope, sheetName, t.right, RightMinimum(t.op));
    AtParts(src, s, left, [TOp(t.op)] + right);
    AtParts(src, s.(pos := s.pos + |left|), [TOp(t.op)], right);
    var s1 := After(s, left, t.left);
    var s2 := Advance(s1);
    AtMoved(src, s.(pos := s.pos + |left| + 1), s2, right);
    ExpressionBack(src, sheetName, t.left, LeftMinimum(t.op), minimum, s);
    ExpressionBack(src, sheetName, t.right, RightMinimum(t.op), RightMinimum(t.op), s2);
    var s3 := After(s2, right, t.right);
    assert s3 == After(s, left + ([TOp(t.op)] + right), t);
    StopOperators(src, t.right, RightMinimum(t.op), s3);
    StepOperators(src, t.left, minimum, s1, Done(t.right, s3));
  }

  lemma BinaryLayout(scope: Scope, sheetName: string -> string, t: Node)
    requires t.Binary? && Printable(scope, sheetName, t)
    ensures Precedence(t.op) >= 1 && Refs(t) == Refs(t.left) + Refs(t.right)
    ensures Printable(scope, sheetName, t.left) && Printable(scope, sheetName, t.right)
    ensures Bare(scope, sheetName, t)
         == Print(scope, sheetName, t.left, LeftMinimum(t.op))
            + ([TOp(t.op)] + Print(scope, sheetName, t.right, RightMinimum(t.op)))
    ensures t.left.Binary? ==> Precedence(t.left.op) >= 1
    ensures t.right.Binary? ==> Precedence(t.right.op) >= 1
  {
  }

  // Parsing inverts printing: the tree comes back, and the dependencies are
  // exactly the cells it refers to.
  lemma ParseInvertsPrint(scope: Scope, sheetName: string -> string, t: Node)
    requires Printable(scope, sheetName, t)
    ensures var ts := Print(scope, sheetName, t, 0);
            Source(ts + [TEnd], scope).Formula() == Done(t, State(|ts|, Refs(t), [], 0))
  {
    hide Source.Expression, Source.Operators, Print, Printable;
    var ts := Print(scope, sheetName, t, 0);
    var src := Source(ts + [TEnd], scope);
    var s := State(0, {}, [], 0);
    assert src.tokens[0..|ts|] == ts;
    ExpressionBack(src, sheetName, t, 0, 0, s);
    StopOperators(src, t, 0, After(s, ts, t));
  }

  // So no two trees are ever written the same way.
  lemma PrintInjective(scope: Scope, sheetName: string -> string, t: Node, u: Node)
    requires Printable(scope, sheetName, t) && Printable(scope, sheetName, u)
    requires Print(scope, sheetName, t, 0) == Print(scope, sheetName, u, 0)
    ensures t == u
  {
    ParseInvertsPrint(scope, sheetName, t);
    ParseInvertsPrint(scope, sheetName, u);
  }
}
