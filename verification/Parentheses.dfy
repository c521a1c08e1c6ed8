/**
  No pair of parentheses the printer writes around an operand can be left out:
  without it the operand's own operator binds differently and another tree is
  read.  That other tree is built here and shown to be written exactly as the
  tokens without the pair, so parsing gives it back.
*/
module Parentheses {
  import opened FormulaSyntax
  import opened Grammar
  import opened Printer

  // What reads as `l op r` when l stands bare: op goes to the rightmost operand of
  // l that is tight enough to keep out of its reach.
  function GraftLeft(l: Node, op: string, r: Node): Node {
    if l.Binary? && Level(l) < LeftMinimum(op) then
      Binary(l.op, l.left, if Level(l.right) < RightMinimum(l.op) then Binary(op, l.right, r) else GraftLeft(l.right, op, r))
    else Binary(op, l, r)
  }

  // What reads as `l op r` when r stands bare.
  function GraftRight(l: Node, op: string, r: Node): Node {
    if r.Binary? && Level(r) < RightMinimum(op) then
      Binary(r.op, if Level(r.left) < LeftMinimum(r.op) then Binary(op, l, r.left) else GraftRight(l, op, r.left), r.right)
    else Binary(op, l, r)
  }

  // What reads as a sign before a bare x.
  function GraftSign(op: string, x: Node): Node {
    if x.Binary? then
      Binary(x.op, if Level(x.left) < LeftMinimum(x.op) then Unary(op, x.left) else GraftSign(op, x.left), x.right)
    else Unary(op, x)
  }

  // Precedences run from 1 to 5, and only `^` is at 5.
  lemma Levels(op: string)
    requires Precedence(op) >= 1
    ensures 1 <= Precedence(op) <= 5 && (op == "^" <==> Precedence(op) == 5)
    ensures RightMinimum(op) == (if op == "^" then 5 else Precedence(op) + 1)
  {
  }

  lemma {:induction false} LeftWritten(scope: Scope, sheetName: string -> string, l: Node, op: string, r: Node)
    requires Printable(scope, sheetName, l) && Printable(scope, sheetName, r) && Precedence(op) >= 1
    ensures var u := GraftLeft(l, op, r);
            && u.Binary? && Printable(scope, sheetName, u)
            && (Level(u) == Precedence(op) || (l.Binary? && Level(u) == Level(l)))
            && Bare(scope, sheetName, u) == Bare(scope, sheetName, l) + ([TOp(op)] + Print(scope, sheetName, r, RightMinimum(op)))
    decreases l
  {
    hide Bare, Printable;
    var u := GraftLeft(l, op, r);
    Levels(op);
    if l.Binary? && Level(l) < LeftMinimum(op) {
      BinaryLayout(scope, sheetName, l);
      Levels(l.op);
      if Level(l.right) < RightMinimum(l.op) {
        BuiltBinary(scope, sheetName, op, l.right, r);
      } else {
        LeftWritten(scope, sheetName, l.right, op, r);
      }
      BuiltBinary(scope, sheetName, l.op, l.left, u.right);
      LeftTokens(Print(scope, sheetName, l.left, LeftMinimum(l.op)), [TOp(l.op)], Print(scope, sheetName, l.right, RightMinimum(l.op)),
                 [TOp(op)] + Print(scope, sheetName, r, RightMinimum(op)));
    } else {
      BuiltBinary(scope, sheetName, op, l, r);
    }
  }

  lemma LeftTokens(a: seq<Token>, b: seq<Token>, c: seq<Token>, d: seq<Token>)
    ensures a + (b + (c + d)) == (a + (b + c)) + d
  {
  }

  lemma BuiltBinary(scope: Scope, sheetName: string -> string, op: string, l: Node, r: Node)
    requires Printable(scope, sheetName, l) && Printable(scope, sheetName, r) && Precedence(op) >= 1
    ensures Printable(scope, sheetName, Binary(op, l, r))
    ensures Bare(scope, sheetName, Binary(op, l, r))
         == Print(scope, sheetName, l, LeftMinimum(op)) + ([TOp(op)] + Print(scope, sheetName, r, RightMinimum(op)))
    ensures Level(Binary(op, l, r)) == Precedence(op)
  {
    BinaryLayout(scope, sheetName, Binary(op, l, r));
  }

  lemma {:induction false} RightWritten(scope: Scope, sheetName: string -> string, l: Node, op: string, r: Node)
    requires Printable(scope, sheetName, l) && Printable(scope, sheetName, r) && Precedence(op) >= 1
    ensures var u := GraftRight(l, op, r);
            && u.Binary? && Printable(scope, sheetName, u)
            && (Level(u) == Precedence(op) || (r.Binary? && Level(u) == Level(r)))
            && Bare(scope, sheetName, u) == Print(scope, sheetName, l, LeftMinimum(op)) + ([TOp(op)] + Bare(scope, sheetName, r))
    decreases r
  {
    hide Bare, Printable;
    var u := GraftRight(l, op, r);
    Levels(op);
    if r.Binary? && Level(r) < RightMinimum(op) {
      BinaryLayout(scope, sheetName, r);
      Levels(r.op);
      if Level(r.left) < LeftMinimum(r.op) {
        BuiltBinary(scope, sheetName, op, l, r.left);
      } else {
        RightWritten(scope, sheetName, l, op, r.left);
      }
      BuiltBinary(scope, sheetName, r.op, u.left, r.right);
      LeftTokens(Print(scope, sheetName, l, LeftMinimum(op)), [TOp(op)], Print(scope, sheetName, r.left, LeftMinimum(r.op)),
                 [TOp(r.op)] + Print(scope, sheetName, r.right, RightMinimum(r.op)));
    } else {
      BuiltBinary(scope, sheetName, op, l, r);
    }
  }

  lemma BuiltUnary(scope: Scope, sheetName: string -> string, op: string, x: Node)
    requires Printable(scope, sheetName, x) && op in {"+", "-"}
    ensures Printable(scope, sheetName, Unary(op, x))
    ensures Bare(scope, sheetName, Unary(op, x)) == [TOp(op)] + Print(scope, sheetName, x, UNARY_LEVEL)
  {
  }

  lemma {:induction false} SignWritten(scope: Scope, sheetName: string -> string, op: string, x: Node)
    requires Printable(scope, sheetName, x) && op in {"+", "-"}
    ensures var u := GraftSign(op, x);
            && Printable(scope, sheetName, u) && (u.Unary? || (x.Binary? && u.Binary? && Level(u) == Level(x)))
            && Bare(scope, sheetName, u) == [TOp(op)] + Bare(scope, sheetName, x)
    decreases x
  {
    hide Bare, Printable;
    var u := GraftSign(op, x);
    if x.Binary? {
      BinaryLayout(scope, sheetName, x);
      Levels(x.op);
      if Level(x.left) < LeftMinimum(x.op) {
        BuiltUnary(scope, sheetName, op, x.left);
      } else {
        SignWritten(scope, sheetName, op, x.left);
      }
      BuiltBinary(scope, sheetName, x.op, u.left, x.right);
      SignTokens([TOp(op)], Print(scope, sheetName, x.left, LeftMinimum(x.op)),
                 [TOp(x.op)] + Print(scope, sheetName, x.right, RightMinimum(x.op)));
    } else {
      BuiltUnary(scope, sheetName, op, x);
    }
  }

  lemma SignTokens(a: seq<Token>, b: seq<Token>, c: seq<Token>)
    ensures (a + b) + c == a + (b + c)
  {
  }

  // A formula with the parentheses around its left operand left out reads as
  // another one.
  lemma LeftPairNeeded(scope: Scope, sheetName: string -> string, t: Node)
    requires t.Binary? && Printable(scope, sheetName, t) && Level(t.left) < LeftMinimum(t.op)
    ensures Printable(scope, sheetName, t.left) && Printable(scope, sheetName, t.right)
    ensures var ts := Bare(scope, sheetName, t.left) + ([TOp(t.op)] + Print(scope, sheetName, t.right, RightMinimum(t.op)));
            var p := Source(ts + [TEnd], scope).Formula();
            p.node.Some? && p.node.value != t
  {
    BinaryLayout(scope, sheetName, t);
    var u := GraftLeft(t.left, t.op, t.right);
    LeftWritten(scope, sheetName, t.left, t.op, t.right);
    ParseInvertsPrint(scope, sheetName, u);
    assert t.left.Binary? && u.left == t.left.left;
  }

  // The same for the right operand ...
  lemma RightPairNeeded(scope: Scope, sheetName: string -> string, t: Node)
    requires t.Binary? && Printable(scope, sheetName, t) && Level(t.right) < RightMinimum(t.op)
    ensures Printable(scope, sheetName, t.left) && Printable(scope, sheetName, t.right)
    ensures var ts := Print(scope, sheetName, t.left, LeftMinimum(t.op)) + ([TOp(t.op)] + Bare(scope, sheetName, t.right));
            var p := Source(ts + [TEnd], scope).Formula();
            p.node.Some? && p.node.value != t
  {
    BinaryLayout(scope, sheetName, t);
    Levels(t.op);
    var u := GraftRight(t.left, t.op, t.right);
    RightWritten(scope, sheetName, t.left, t.op, t.right);
    ParseInvertsPrint(scope, sheetName, u);
    assert t.right.Binary? && u.right == t.right.right;
  }

  // ... and for the operand of a sign.
  lemma SignPairNeeded(scope: Scope, sheetName: string -> string, t: Node)
    requires t.Unary? && Printable(scope, sheetName, t) && Level(t.operand) < UNARY_LEVEL
    ensures Printable(scope, sheetName, t.operand)
    ensures var ts := [TOp(t.op)] + Bare(scope, sheetName, t.operand);
            var p := Source(ts + [TEnd], scope).Formula();
            p.node.Some? && p.node.value != t
  {
    var u := GraftSign(t.op, t.operand);
    SignWritten(scope, sheetName, t.op, t.operand);
    ParseInvertsPrint(scope, sheetName, u);
    assert t.operand.Binary? && u.Binary?;
  }
}
