/**
  What LET and LAMBDA bind in a parsed tree: every bound name lies inside its own
  LET or LAMBDA, behind the values that could not see it, and no two of them
  share a frame.
*/
module Scoping {
  import opened CellAddress
  import opened FormulaSyntax
  import opened Grammar

  // How many names each frame around a place has bound there.
  type Names = map<nat, nat>

  predicate InScope(n: Node, names: Names) {
    match n
    case Literal(v) => !v.Closure? && !v.Array?
    case Bound(f, i) => f in names && i < names[f]
    case Unary(_, operand) => InScope(operand, names)
    case Binary(_, left, right) => InScope(left, names) && InScope(right, names)
    case Call(_, args) => forall i :: 0 <= i < |args| ==> InScope(args[i], names)
    case Let(f, values, body) =>
      f !in names && (forall i :: 0 <= i < |values| ==> InScope(values[i], names[f := i])) && InScope(body, names[f := |values|])
    case Lambda(f, arity, body) => f !in names && InScope(body, names[f := arity])
    case Apply(target, args) => InScope(target, names) && forall i :: 0 <= i < |args| ==> InScope(args[i], names)
    case ArrayLit(_, _, items) => forall i :: 0 <= i < |items| ==> InScope(items[i], names)
    case Dynamic(_, args, _, _, _) => forall i :: 0 <= i < |args| ==> InScope(args[i], names)
    case _ => true
  }

  // The frames of a tree, outermost and leftmost first.
  function Frames(n: Node): seq<nat>
    decreases n, 0
  {
    match n
    case Unary(_, operand) => Frames(operand)
    case Binary(_, left, right) => Frames(left) + Frames(right)
    case Call(_, args) => FramesAll(args)
    case Let(f, values, body) => [f] + FramesAll(values) + Frames(body)
    case Lambda(f, _, body) => [f] + Frames(body)
    case Apply(target, args) => Frames(target) + FramesAll(args)
    case ArrayLit(_, _, items) => FramesAll(items)
    case Dynamic(_, args, _, _, _) => FramesAll(args)
    case _ => []
  }

  function FramesAll(nodes: seq<Node>): seq<nat>
    decreases nodes, 1
  {
    if nodes == [] then [] else FramesAll(nodes[..|nodes| - 1]) + Frames(nodes[|nodes| - 1])
  }

  // All different, in order, from lo up to below hi.
  ghost predicate Rising(fs: seq<nat>, lo: nat, hi: nat) {
    && lo <= hi
    && (forall i :: 0 <= i < |fs| ==> lo <= fs[i] < hi)
    && (forall i, j :: 0 <= i < j < |fs| ==> fs[i] < fs[j])
  }

  ghost predicate Well(n: Node, names: Names, lo: nat, hi: nat) { InScope(n, names) && Rising(Frames(n), lo, hi) }

  ghost predicate WellAll(nodes: seq<Node>, names: Names, lo: nat, hi: nat) {
    (forall i :: 0 <= i < |nodes| ==> InScope(nodes[i], names)) && Rising(FramesAll(nodes), lo, hi)
  }

  // The names the parser knows are those of the frames around the cursor.
  ghost predicate Known(s: State, names: Names) {
    && (forall b :: b in s.binds ==> b.frame in names && b.index < names[b.frame])
    && (forall f :: f in names ==> f < s.unused)
  }

  // -------- frames in order --------

  lemma Joined(a: seq<nat>, b: seq<nat>, lo: nat, mid: nat, hi: nat)
    requires Rising(a, lo, mid) && Rising(b, mid, hi)
    ensures Rising(a + b, lo, hi)
  {
  }

  lemma FramesAppend(nodes: seq<Node>, n: Node)
    ensures FramesAll(nodes + [n]) == FramesAll(nodes) + Frames(n)
  {
    assert (nodes + [n])[..|nodes|] == nodes;
  }

  lemma {:induction false} FramesSplit(a: seq<Node>, b: seq<Node>)
    ensures FramesAll(a + b) == FramesAll(a) + FramesAll(b)
    decreases |b|
  {
    if b == [] {
      assert a + b == a && FramesAll(b) == [];
    } else {
      hide FramesAll;
      var front, last := b[..|b| - 1], b[|b| - 1];
      FramesSplit(a, front);
      FramesAppend(a + front, last);
      FramesAppend(front, last);
      assert a + b == (a + front) + [last] && b == front + [last];
      assert (FramesAll(a) + FramesAll(front)) + Frames(last) == FramesAll(a) + (FramesAll(front) + Frames(last));
    }
  }

  lemma WellAppend(done: seq<Node>, n: Node, names: Names, lo: nat, mid: nat, hi: nat)
    requires WellAll(done, names, lo, mid) && Well(n, names, mid, hi)
    ensures WellAll(done + [n], names, lo, hi)
  {
    hide InScope, Frames;
    FramesAppend(done, n);
    Joined(FramesAll(done), Frames(n), lo, mid, hi);
  }

  lemma WellNone(names: Names, lo: nat)
    ensures WellAll([], names, lo, lo)
  {
  }

  lemma WellOmitted(names: Names, lo: nat)
    ensures Well(Literal(Omitted), names, lo, lo)
  {
  }

  lemma WellFront(a: seq<Node>, b: seq<Node>, names: Names, lo: nat, hi: nat)
    requires WellAll(a + b, names, lo, hi)
    ensures WellAll(a, names, lo, hi)
  {
    hide InScope;
    FramesSplit(a, b);
    assert forall i :: 0 <= i < |a| ==> a[i] == (a + b)[i];
    var fs := FramesAll(a);
    assert forall i :: 0 <= i < |fs| ==> fs[i] == (fs + FramesAll(b))[i];
  }

  lemma {:induction false} FlattenLast(rows: seq<seq<Node>>, row: seq<Node>)
    ensures Flatten(rows + [row]) == Flatten(rows) + row
  {
    if rows == [] {
      assert [row][1..] == [] && rows + [row] == [row] && row + [] == row;
    } else {
      FlattenLast(rows[1..], row);
      assert (rows + [row])[1..] == rows[1..] + [row];
    }
  }

  // -------- the grammar --------

  lemma {:induction false} WellExpression(src: Source, minimum: int, s: State, names: Names)
    requires src.Valid() && src.Ready(s) && Known(s, names)
    ensures var p := src.Expression(minimum, s); p.node.Some? ==> Well(p.node.value, names, s.unused, p.st.unused)
    decreases |src.tokens| - s.pos, 3
  {
    hide Source.Prefix, Source.Operators, Well;
    WellPrefix(src, s, names);
    var first := src.Prefix(s);
    if first.node.Some? { WellOperators(src, first.node.value, minimum, first.st, s.unused, names); }
  }

  lemma {:induction false} WellOperators(src: Source, left: Node, minimum: int, s: State, lo: nat, names: Names)
    requires src.Valid() && src.Ready(s) && Known(s, names) && Refs(left) <= s.deps && Well(left, names, lo, s.unused)
    ensures var p := src.Operators(left, minimum, s); p.node.Some? ==> Well(p.node.value, names, lo, p.st.unused)
    decreases |src.tokens| - s.pos, 4
  {
    hide Source.Expression, Well;
    if src.Tok(s).TOp? && Precedence(src.Tok(s).op) >= minimum {
      var op := src.Tok(s).op;
      WellExpression(src, RightMinimum(op), Advance(s), names);
      var right := src.Expression(RightMinimum(op), Advance(s));
      if right.node.Some? {
        WellBinary(op, left, right.node.value, names, lo, s.unused, right.st.unused);
        WellOperators(src, Binary(op, left, right.node.value), minimum, right.st, lo, names);
      }
    }
  }

  lemma WellBinary(op: string, left: Node, right: Node, names: Names, lo: nat, mid: nat, hi: nat)
    requires Well(left, names, lo, mid) && Well(right, names, mid, hi)
    ensures Well(Binary(op, left, right), names, lo, hi)
  {
    Joined(Frames(left), Frames(right), lo, mid, hi);
  }

  lemma {:induction false} WellPrefix(src: Source, s: State, names: Names)
    requires src.Valid() && src.Ready(s) && Known(s, names)
    ensures var p := src.Prefix(s); p.node.Some? ==> Well(p.node.value, names, s.unused, p.st.unused)
    decreases |src.tokens| - s.pos, 2
  {
    hide Source.Primary;
    if src.Tok(s) == TOp("+") || src.Tok(s) == TOp("-") {
      WellPrefix(src, Advance(s), names);
    } else {
      WellPrimary(src, s, names);
    }
  }

  // A tree without frames of its own.
  ghost predicate Flat(n: Node, names: Names) { InScope(n, names) && Frames(n) == [] }

  lemma FlatIsWell(n: Node, names: Names, lo: nat, hi: nat)
    requires Flat(n, names) && lo <= hi
    ensures Well(n, names, lo, hi)
  {
  }

  lemma {:induction false} WellPrimary(src: Source, s: State, names: Names)
    requires src.Valid() && src.Ready(s) && Known(s, names)
    ensures var p := src.Primary(s); p.node.Some? ==> Well(p.node.value, names, s.unused, p.st.unused)
    decreases |src.tokens| - s.pos, 1
  {
    hide Source.Expression, Source.ArrayRows, Source.Named, Source.Qualified, Source.PlainName, Source.RowBand, Well, Flat;
    var s1, p := Advance(s), src.Primary(s);
    if src.Tok(s).TLeft? {
      WellExpression(src, 0, s1, names);
    } else if src.Tok(s).TOpen? {
      WellNone(names, s.unused);
      assert Flatten([]) + [] == [];
      RefsAllNone();
      WellArrayRows(src, [], [], s1, s.unused, names);
    } else if src.Tok(s).TName? && src.Tok(s1).TLeft? {
      WellNamed(src, src.scope.canonical(src.Tok(s).name), s1, names);
    } else if p.node.Some? {
      AtomFlat(src, s, names);
      FlatIsWell(p.node.value, names, s.unused, p.st.unused);
    }
  }

  lemma AtomFlat(src: Source, s: State, names: Names)
    requires src.Valid() && src.Ready(s) && Known(s, names) && !src.Tok(s).TLeft? && !src.Tok(s).TOpen? && src.Primary(s).node.Some?
    requires src.Tok(s).TName? ==> !src.Tok(Advance(s)).TLeft?
    ensures Flat(src.Primary(s).node.value, names)
  {
    hide Source.Qualified, Source.PlainName, Source.RowBand;
    var s1 := Advance(s);
    match src.Tok(s)
    case TQuoted(sheet) => QualifiedFlat(src, sheet, Advance(s1), names);
    case TName(name) => if src.Tok(s1).TBang? { QualifiedFlat(src, name, Advance(s1), names); } else { PlainNameFlat(src, name, s1, names); }
    case TWhole(n) => if src.Tok(s1).TColon? { RowBandFlat(src, "", n, s1, names); }
    case _ =>
  }

  lemma RangeFlat(sheet: string, rect: Rect, s: State, names: Names)
    requires Proper(rect)
    ensures var p := BuildRangeAt(sheet, rect, s); p.node.Some? ==> Flat(p.node.value, names)
  {
  }

  lemma BuildFlat(scope: Scope, qualifier: string, rect: Rect, s: State, names: Names)
    requires Proper(rect)
    ensures var p := BuildRange(scope, qualifier, rect, s); p.node.Some? ==> Flat(p.node.value, names)
  {
    hide BuildRangeAt, Flat;
    if SheetFor(scope, qualifier).Some? { RangeFlat(SheetFor(scope, qualifier).value, rect, s, names); }
  }

  lemma RowBandFlat(src: Source, qualifier: string, row: int, s: State, names: Names)
    requires src.Valid() && src.Ready(s) && src.Tok(s).TColon?
    ensures var p := src.RowBand(qualifier, row, s); p.node.Some? ==> Flat(p.node.value, names)
  {
    hide BuildRange, Flat;
    var s1 := Advance(s);
    if IsNumber(src.Tok(s1)) && AsRow(src.Tok(s1)).Some? {
      var end := AsRow(src.Tok(s1)).value;
      BuildFlat(src.scope, qualifier,
                Rect(if end < row then end else row, 1, if end < row then row else end, ExtentFor(src.scope, qualifier).columns),
                Advance(s1), names);
    }
  }

  lemma CellReferenceFlat(src: Source, qualifier: string, start: string, s: State, names: Names)
    requires src.Valid() && src.Ready(s)
    ensures var p := src.CellReference(qualifier, start, s); p.node.Some? ==> Flat(p.node.value, names)
  {
    hide BuildRange, ParseCell, ParseColumn, RangeRect;
    if src.Tok(s).TColon? && src.Tok(Advance(s)).TName? {
      var s1 := Advance(s);
      var rect := RangeRect(start, src.Tok(s1).name, ExtentFor(src.scope, qualifier));
      if rect.Some? { BuildFlat(src.scope, qualifier, rect.value, Advance(s1), names); }
    }
  }

  lemma QualifiedFlat(src: Source, qualifier: string, s: State, names: Names)
    requires src.Valid() && src.Ready(s)
    ensures var p := src.Qualified(qualifier, s); p.node.Some? ==> Flat(p.node.value, names)
  {
    hide Source.RowBand, Source.CellReference, Flat;
    if IsNumber(src.Tok(s)) && src.tokens[s.pos + 1].TColon? {
      if AsRow(src.Tok(s)).Some? { RowBandFlat(src, qualifier, AsRow(src.Tok(s)).value, Advance(s), names); }
    } else if src.Tok(s).TName? {
      CellReferenceFlat(src, qualifier, src.Tok(s).name, Advance(s), names);
    }
  }

  lemma NamedRangeFlat(scope: Scope, name: string, s: State, names: Names)
    ensures var p := NamedRange(scope, name, s); p.node.Some? ==> Flat(p.node.value, names)
  {
    hide BuildRangeAt, Flat;
    if scope.namedRange(name).Some? {
      var (sheet, rect) := scope.namedRange(name).value;
      if Proper(rect) { RangeFlat(sheet, rect, s, names); }
    }
  }

  lemma LookupFlat(s: State, name: string, names: Names)
    requires Known(s, names) && Lookup(s.binds, name).Some?
    ensures Flat(Lookup(s.binds, name).value, names)
  {
    hide Lookup;
    LookupInnermost(s.binds, name);
    var i :| 0 <= i < |s.binds| && Lookup(s.binds, name).value == Bound(s.binds[i].frame, s.binds[i].index);
    assert s.binds[i] in s.binds;
  }

  lemma PlainNameFlat(src: Source, name: string, s: State, names: Names)
    requires src.Valid() && src.Ready(s) && Known(s, names)
    ensures var p := src.PlainName(name, s); p.node.Some? ==> Flat(p.node.value, names)
  {
    hide Source.CellReference, NamedRange, ParseCell, ParseColumn, Lookup;
    CellReferenceFlat(src, "", name, s, names);
    NamedRangeFlat(src.scope, name, s, names);
    if Lookup(s.binds, name).Some? { LookupFlat(s, name, names); }
  }

  lemma {:induction false} WellNamed(src: Source, name: string, s: State, names: Names)
    requires src.Valid() && src.Ready(s) && src.Tok(s).TLeft? && Known(s, names)
    ensures var p := src.Named(name, s); p.node.Some? ==> Well(p.node.value, names, s.unused, p.st.unused)
    decreases |src.tokens| - s.pos, 1
  {
    hide Source.LetSteps, Source.LambdaParts, Source.Callable, Source.Arguments, Source.Finish, Well, WellAll, Lookup;
    var s1 := Advance(s);
    RefsAllNone();
    if name == "LET" {
      LetStart(s1, names);
      WellLetSteps(src, s1.unused, [], s1.(unused := s1.unused + 1), names);
    } else if name == "LAMBDA" {
      var inner := s1.(unused := s1.unused + 1);
      WellLambdaParts(src, s1.unused, 0, inner, names);
      var p := src.LambdaParts(s1.unused, 0, inner);
      if p.node.Some? { WellCallable(src, p.node.value, p.st.(binds := p.st.binds[..|s.binds|]), s.unused, names); }
    } else if Lookup(s.binds, name).Some? {
      var bound := Lookup(s.binds, name).value;
      LookupFlat(s, name, names);
      FlatIsWell(bound, names, s.unused, s.unused);
      WellCallable(src, bound, s, s.unused, names);
    } else {
      WellNone(names, s.unused);
      if !src.Tok(s1).TRight? { WellArguments(src, [], s1, s.unused, names); }
      var list := if src.Tok(s1).TRight? then ParseList(Some([]), s1) else src.Arguments([], s1);
      if list.nodes.Some? && src.Tok(list.st).TRight? { WellFinish(src, name, list.nodes.value, Advance(list.st), s.unused, names); }
    }
  }

  lemma WellFinish(src: Source, name: string, args: seq<Node>, s: State, lo: nat, names: Names)
    requires RefsAll(args) <= s.deps && WellAll(args, names, lo, s.unused)
    ensures var p := src.Finish(name, args, s); p.node.Some? ==> Well(p.node.value, names, lo, p.st.unused)
  {
    hide ReferenceFunction;
    if IsReferenceFunction(name) { ReferenceWell(src.scope, name, args, s, lo, names); }
  }

  lemma ReferenceWell(scope: Scope, name: string, args: seq<Node>, s: State, lo: nat, names: Names)
    requires IsReferenceFunction(name) && RefsAll(args) <= s.deps && WellAll(args, names, lo, s.unused)
    ensures var p := ReferenceFunction(scope, name, args, s); p.node.Some? ==> Well(p.node.value, names, lo, p.st.unused)
  {
    hide BuildRange, BuildRangeAt, ConstantOffsets, NodeReference, OffsetRect, RefsAll;
    if name == "OFFSET" && 3 <= |args| <= 5 && NodeReference(args[0]).Some? {
      var place, offsets := NodeReference(args[0]).value, ConstantOffsets(scope, args[1..]);
      if offsets.Some? && OffsetRect(place, offsets.value).Some? { RangeFlat(place.sheet, OffsetRect(place, offsets.value).value, s, names); }
    } else if name == "INDIRECT" && 1 <= |args| <= 2 && args[0].Literal? && scope.textRange(args[0].value).Some? {
      var (qualifier, rect) := scope.textRange(args[0].value).value;
      if Proper(rect) { BuildFlat(scope, qualifier, rect, s, names); }
    }
  }

  lemma {:induction false} WellArguments(src: Source, done: seq<Node>, s: State, lo: nat, names: Names)
    requires src.Valid() && src.Ready(s) && Known(s, names) && RefsAll(done) <= s.deps && WellAll(done, names, lo, s.unused)
    ensures var p := src.Arguments(done, s); p.nodes.Some? ==> WellAll(p.nodes.value, names, lo, p.st.unused)
    decreases |src.tokens| - s.pos, 4
  {
    hide Source.Expression, RefsAll, Well, WellAll;
    RefsAllAppend(done, Literal(Omitted));
    WellOmitted(names, s.unused);
    WellAppend(done, Literal(Omitted), names, lo, s.unused, s.unused);
    if IsSeparator(src.Tok(s)) {
      assert Refs(Literal(Omitted)) == {};
      WellArguments(src, done + [Literal(Omitted)], Advance(s), lo, names);
    } else if !src.Tok(s).TRight? {
      WellExpression(src, 0, s, names);
      var p := src.Expression(0, s);
      if p.node.Some? {
        RefsAllAppend(done, p.node.value);
        WellAppend(done, p.node.value, names, lo, s.unused, p.st.unused);
        if IsSeparator(src.Tok(p.st)) { WellArguments(src, done + [p.node.value], Advance(p.st), lo, names); }
      }
    }
  }

  lemma {:induction false} WellOperands(src: Source, done: seq<Node>, s: State, lo: nat, names: Names)
    requires src.Valid() && src.Ready(s) && Known(s, names) && RefsAll(done) <= s.deps && WellAll(done, names, lo, s.unused)
    ensures var p := src.Operands(done, s); p.nodes.Some? ==> WellAll(p.nodes.value, names, lo, p.st.unused)
    decreases |src.tokens| - s.pos, 4
  {
    hide Source.Expression, RefsAll, Well, WellAll;
    WellExpression(src, 0, s, names);
    var p := src.Expression(0, s);
    if p.node.Some? {
      RefsAllAppend(done, p.node.value);
      WellAppend(done, p.node.value, names, lo, s.unused, p.st.unused);
      if IsSeparator(src.Tok(p.st)) { WellOperands(src, done + [p.node.value], Advance(p.st), lo, names); }
    }
  }

  lemma {:induction false} WellCallable(src: Source, target: Node, s: State, lo: nat, names: Names)
    requires src.Valid() && src.Ready(s) && Known(s, names) && Refs(target) <= s.deps && Well(target, names, lo, s.unused)
    ensures var p := src.Callable(target, s); p.node.Some? ==> Well(p.node.value, names, lo, p.st.unused)
    decreases |src.tokens| - s.pos, 0
  {
    hide Source.Operands, RefsAll, Well, WellAll;
    RefsAllNone();
    if src.Tok(s).TLeft? {
      var s1 := Advance(s);
      WellNone(names, s.unused);
      if !src.Tok(s1).TRight? { WellOperands(src, [], s1, s.unused, names); }
      var list := if src.Tok(s1).TRight? then ParseList(Some([]), s1) else src.Operands([], s1);
      if list.nodes.Some? { WellApply(target, list.nodes.value, names, lo, s.unused, list.st.unused); }
    }
  }

  lemma WellApply(target: Node, args: seq<Node>, names: Names, lo: nat, mid: nat, hi: nat)
    requires Well(target, names, lo, mid) && WellAll(args, names, mid, hi)
    ensures Well(Apply(target, args), names, lo, hi)
  {
    Joined(Frames(target), FramesAll(args), lo, mid, hi);
  }

  // -------- LET and LAMBDA --------

  // The values read so far, each within the names before it.
  ghost predicate Steps(f: nat, values: seq<Node>, names: Names, hi: nat) {
    && f !in names
    && (forall i :: 0 <= i < |values| ==> InScope(values[i], names[f := i]))
    && Rising([f] + FramesAll(values), f, hi)
  }

  lemma LetStart(s: State, names: Names)
    requires Known(s, names)
    ensures Steps(s.unused, [], names, s.unused + 1)
    ensures Known(s.(unused := s.unused + 1), names[s.unused := 0])
  {
  }

  lemma {:induction false} WellLetBinding(src: Source, frame: nat, index: nat, s: State, names: Names)
    requires src.Valid() && src.Ready(s) && Known(s, names) && frame in names && names[frame] == index
    ensures var p := src.LetBinding(frame, index, s);
            p.node.Some? ==> Well(p.node.value, names, s.unused, p.st.unused) && Known(p.st, names[frame := index + 1])
    decreases |src.tokens| - s.pos, 4
  {
    hide Source.Expression, Well, ParseCell;
    if src.Tok(s).TName? && ParseCell(src.Tok(s).name).None? && IsSeparator(src.Tok(Advance(s))) {
      WellExpression(src, 0, Advance(Advance(s)), names);
    }
  }

  lemma {:induction false} WellLetSteps(src: Source, frame: nat, values: seq<Node>, s: State, names: Names)
    requires src.Valid() && src.Ready(s) && RefsAll(values) <= s.deps
    requires Known(s, names[frame := |values|]) && Steps(frame, values, names, s.unused)
    ensures var p := src.LetSteps(frame, values, s); p.node.Some? ==> Well(p.node.value, names, frame, p.st.unused)
    decreases |src.tokens| - s.pos, 5
  {
    hide Source.Expression, Source.LetBinding, RefsAll, Well, Steps, Known;
    var inner := names[frame := |values|];
    WellLetBinding(src, frame, |values|, s, inner);
    var value := src.LetBinding(frame, |values|, s);
    if value.node.Some? {
      RefsAllAppend(values, value.node.value);
      var values' := values + [value.node.value];
      OneMoreStep(frame, values, value.node.value, names, s.unused, value.st.unused);
      assert inner[frame := |values| + 1] == names[frame := |values'|];
      if src.StartsBindingName(value.st) {
        WellLetSteps(src, frame, values', value.st, names);
      } else {
        WellExpression(src, 0, value.st, names[frame := |values'|]);
        var body := src.Expression(0, value.st);
        if body.node.Some? { WellLet(frame, values', body.node.value, names, value.st.unused, body.st.unused); }
      }
    }
  }

  lemma OneMoreStep(f: nat, values: seq<Node>, v: Node, names: Names, mid: nat, hi: nat)
    requires Steps(f, values, names, mid) && Well(v, names[f := |values|], mid, hi)
    ensures Steps(f, values + [v], names, hi)
  {
    hide InScope, Frames;
    FramesAppend(values, v);
    Joined([f] + FramesAll(values), Frames(v), f, mid, hi);
    assert [f] + (FramesAll(values) + Frames(v)) == ([f] + FramesAll(values)) + Frames(v);
  }

  lemma WellLet(f: nat, values: seq<Node>, body: Node, names: Names, mid: nat, hi: nat)
    requires Steps(f, values, names, mid) && Well(body, names[f := |values|], mid, hi)
    ensures Well(Let(f, values, body), names, f, hi)
  {
    Joined([f] + FramesAll(values), Frames(body), f, mid, hi);
  }

  lemma {:induction false} WellLambdaParts(src: Source, frame: nat, arity: nat, s: State, names: Names)
    requires src.Valid() && src.Ready(s) && frame !in names && frame < s.unused
    requires (forall b :: b in s.binds ==> b.frame in names[frame := arity] && b.index < names[frame := arity][b.frame])
    requires forall f :: f in names ==> f < frame
    ensures var p := src.LambdaParts(frame, arity, s); p.node.Some? ==> Well(p.node.value, names, frame, p.st.unused)
    decreases |src.tokens| - s.pos, 4
  {
    hide Source.Expression, Well, ParseCell;
    if src.StartsBindingName(s) {
      var s' := Advance(Advance(s)).(binds := s.binds + [Binding(src.Tok(s).name, frame, arity)]);
      WellLambdaParts(src, frame, arity + 1, s', names);
    } else {
      WellExpression(src, 0, s, names[frame := arity]);
      var body := src.Expression(0, s);
      if body.node.Some? { WellLambda(frame, arity, body.node.value, names, s.unused, body.st.unused); }
    }
  }

  lemma WellLambda(f: nat, arity: nat, body: Node, names: Names, mid: nat, hi: nat)
    requires f !in names && f < mid && Well(body, names[f := arity], mid, hi)
    ensures Well(Lambda(f, arity, body), names, f, hi)
  {
    Joined([f], Frames(body), f, mid, hi);
  }

  // -------- array literals and formulas --------

  lemma {:induction false} WellArrayRows(src: Source, rows: seq<seq<Node>>, row: seq<Node>, s: State, lo: nat, names: Names)
    requires src.Valid() && src.Ready(s) && Known(s, names) && WellAll(Flatten(rows) + row, names, lo, s.unused)
    requires RefsAll(row) <= s.deps && forall r :: r in rows ==> RefsAll(r) <= s.deps
    ensures var p := src.ArrayRows(rows, row, s); p.node.Some? ==> Well(p.node.value, names, lo, p.st.unused)
    decreases |src.tokens| - s.pos, 4
  {
    hide Source.Expression, RefsAll, Source.ArrayEnd, Well, WellAll, Flatten;
    RefsAllNone();
    if src.Tok(s).TClose? {
      WellFront(Flatten(rows), row, names, lo, s.unused);
      WellArrayEnd(src, rows, Advance(s), lo, names);
    } else {
      WellExpression(src, 0, s, names);
      var item := src.Expression(0, s);
      if item.node.Some? {
        RefsAllAppend(row, item.node.value);
        var row' := row + [item.node.value];
        WellAppend(Flatten(rows) + row, item.node.value, names, lo, s.unused, item.st.unused);
        assert (Flatten(rows) + row) + [item.node.value] == Flatten(rows) + row';
        FlattenLast(rows, row');
        match src.Tok(item.st)
        case TComma => WellArrayRows(src, rows, row', Advance(item.st), lo, names);
        case TSemicolon =>
          assert Flatten(rows + [row']) + [] == Flatten(rows + [row']);
          WellArrayRows(src, rows + [row'], [], Advance(item.st), lo, names);
        case TClose => WellArrayEnd(src, rows + [row'], Advance(item.st), lo, names);
        case _ =>
      }
    }
  }

  lemma WellArrayEnd(src: Source, rows: seq<seq<Node>>, s: State, lo: nat, names: Names)
    requires (forall r :: r in rows ==> RefsAll(r) <= s.deps) && WellAll(Flatten(rows), names, lo, s.unused)
    ensures var p := src.ArrayEnd(rows, s); p.node.Some? ==> Well(p.node.value, names, lo, p.st.unused)
  {
    hide RefsAll;
  }

  // Every formula that parses is well scoped and gives each LET and LAMBDA a frame
  // of its own.
  lemma ParsedIsScoped(src: Source)
    requires src.Valid() && src.Formula().node.Some?
    ensures InScope(src.Formula().node.value, map[])
    ensures Rising(Frames(src.Formula().node.value), 0, src.Formula().st.unused)
  {
    hide Source.Expression, InScope;
    WellExpression(src, 0, State(0, {}, [], 0), map[]);
  }
}
