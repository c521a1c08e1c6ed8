/**
  How operators group, said without the parser's table: a chain of operands splits
  at its loosest operator, at the last one of them, or at the first if they are
  powers, and so on within both halves.
*/
module Grouping {
  import opened CellAddress
  import opened FormulaSyntax
  import opened Grammar

  // The classes of operators, loosest first.
  const CLASSES: seq<set<string>> := [{"=", "<>", "<", ">", "<=", ">="}, {"&"}, {"+", "-"}, {"*", "/"}, {"^"}]

  predicate InClass(op: string, c: nat) { c < |CLASSES| && op in CLASSES[c] }

  ghost predicate Known(op: string) { exists c :: InClass(op, c) }

  ghost predicate Tighter(q: string, p: string) { exists c, d :: InClass(q, c) && InClass(p, d) && c > d }

  ghost predicate Alike(q: string, p: string) { exists c :: InClass(q, c) && InClass(p, c) }

  // Where a chain of operators splits.
  ghost predicate SplitsAt(ops: seq<string>, i: nat) {
    && i < |ops|
    && (forall j :: 0 <= j < |ops| ==> Alike(ops[j], ops[i]) || Tighter(ops[j], ops[i]))
    && (if ops[i] == "^" then forall j :: 0 <= j < i ==> !Alike(ops[j], ops[i]) else forall j :: i < j < |ops| ==> !Alike(ops[j], ops[i]))
  }

  // n is the chain of operands grouped that way.
  ghost predicate Groups(n: Node, operands: seq<Node>, ops: seq<string>)
    requires |operands| == |ops| + 1
    decreases |ops|
  {
    if ops == [] then n == operands[0]
    else n.Binary? && exists i :: SplitsAt(ops, i) && GroupsAt(n, operands, ops, i)
  }

  ghost predicate GroupsAt(n: Node, operands: seq<Node>, ops: seq<string>, i: nat)
    requires |operands| == |ops| + 1 && i < |ops| && n.Binary?
    decreases |ops|, 0
  {
    n.op == ops[i] && Groups(n.left, operands[..i + 1], ops[..i]) && Groups(n.right, operands[i + 1..], ops[i + 1..])
  }

  // A chain splits at one place only, so it groups in one way.
  lemma SplitsOnce(ops: seq<string>, i: nat, j: nat)
    requires SplitsAt(ops, i) && SplitsAt(ops, j)
    ensures i == j
  {
    RankOf(ops[i]);
    RankOf(ops[j]);
    BothWays(ops[i], ops[j]);
  }

  lemma BothWays(p: string, q: string)
    requires (Alike(p, q) || Tighter(p, q)) && (Alike(q, p) || Tighter(q, p))
    ensures Alike(p, q) && Alike(q, p) && (p == "^" <==> q == "^")
  {
    RankOf(p);
    RankOf(q);
    Ranked(p, q);
    Ranked(q, p);
  }

  lemma {:induction false} GroupsOneWay(n: Node, n': Node, operands: seq<Node>, ops: seq<string>)
    requires |operands| == |ops| + 1 && Groups(n, operands, ops) && Groups(n', operands, ops)
    ensures n == n'
    decreases |ops|
  {
    if ops != [] {
      var i: nat :| SplitsAt(ops, i) && GroupsAt(n, operands, ops, i);
      var j: nat :| SplitsAt(ops, j) && GroupsAt(n', operands, ops, j);
      hide SplitsAt;
      SplitsOnce(ops, i, j);
      GroupsOneWay(n.left, n'.left, operands[..i + 1], ops[..i]);
      GroupsOneWay(n.right, n'.right, operands[i + 1..], ops[i + 1..]);
    }
  }

  // -------- the parser's table --------

  // The table numbers the classes from one on.
  lemma RankOf(op: string)
    ensures if Known(op) then Precedence(op) >= 1 else Precedence(op) < 0
    ensures forall c :: InClass(op, c) <==> 0 <= c == Precedence(op) - 1
    ensures Precedence(op) <= 5 && (Precedence(op) == 5 <==> op == "^")
  {
    assert CLASSES[0] == {"=", "<>", "<", ">", "<=", ">="} && CLASSES[1] == {"&"} && CLASSES[2] == {"+", "-"};
    assert CLASSES[3] == {"*", "/"} && CLASSES[4] == {"^"} && |CLASSES| == 5;
    assert InClass(op, 0) <==> op in {"=", "<>", "<", ">", "<=", ">="};
    assert InClass(op, 1) <==> op == "&";
    assert InClass(op, 2) <==> op in {"+", "-"};
    assert InClass(op, 3) <==> op in {"*", "/"};
    assert InClass(op, 4) <==> op == "^";
    if Precedence(op) >= 1 { assert InClass(op, Precedence(op) - 1); }
  }

  lemma Ranked(q: string, p: string)
    ensures Tighter(q, p) <==> Precedence(q) > Precedence(p) >= 1
    ensures Alike(q, p) <==> Precedence(q) == Precedence(p) >= 1
  {
    hide InClass, Precedence;
    RankOf(p);
    RankOf(q);
    if Precedence(q) >= 1 { assert InClass(q, Precedence(q) - 1); }
    if Precedence(p) >= 1 { assert InClass(p, Precedence(p) - 1); }
  }

  // -------- chains in the text --------

  // From starts[k] on, whatever stands there, operand k is read up to ends[k]; there
  // stands operator k, and behind it operand k + 1.  No operator follows the last.
  ghost predicate Chain(src: Source, starts: seq<State>, operands: seq<Node>, ends: seq<State>, ops: seq<string>)
    requires src.Valid()
  {
    && |starts| == |operands| == |ends| == |ops| + 1
    && (forall k :: 0 <= k < |operands| ==> src.Ready(starts[k]) && src.Prefix(starts[k]) == Done(operands[k], ends[k]))
    && (forall k :: 0 <= k < |ops| ==> src.Tok(ends[k]) == TOp(ops[k]) && Known(ops[k]) && starts[k + 1] == Advance(ends[k]))
    && !(src.Tok(ends[|ops|]).TOp? && Known(src.Tok(ends[|ops|]).op))
  }

  // How the operator behind operand k binds; behind the last it binds nothing.
  function Binds(ops: seq<string>, k: nat): int
    requires k <= |ops|
  {
    if k == |ops| then -1 else Precedence(ops[k])
  }

  // Operands i to k are grouped, and the operator behind them is too loose for the
  // right of any operator among them.
  ghost predicate Gathered(n: Node, operands: seq<Node>, ops: seq<string>, i: nat, k: nat)
    requires |operands| == |ops| + 1 && i <= k <= |ops|
  {
    Groups(n, operands[i..k + 1], ops[i..k]) && forall j :: i <= j < k ==> Binds(ops, k) < RightMinimum(ops[j])
  }

  // One more operator and its right operand, which are the operands up to e.
  lemma Gather(left: Node, right: Node, operands: seq<Node>, ops: seq<string>, i: nat, k: nat, e: nat)
    requires |operands| == |ops| + 1 && i <= k < e <= |ops| && (forall j :: 0 <= j < |ops| ==> Known(ops[j]))
    requires Gathered(left, operands, ops, i, k) && Groups(right, operands[k + 1..e + 1], ops[k + 1..e])
    requires Binds(ops, e) < RightMinimum(ops[k]) && forall j :: k < j < e ==> Precedence(ops[j]) >= RightMinimum(ops[k])
    ensures Gathered(Binary(ops[k], left, right), operands, ops, i, e)
  {
    hide Precedence, Groups, SplitsAt, Known;
    var n, part, all := Binary(ops[k], left, right), ops[i..e], operands[i..e + 1];
    Splits(ops, i, k, e);
    assert part[k - i] == ops[k];
    assert all[..k - i + 1] == operands[i..k + 1] && part[..k - i] == ops[i..k];
    assert all[k - i + 1..] == operands[k + 1..e + 1] && part[k - i + 1..] == ops[k + 1..e];
    GroupsFrom(n, all, part, k - i);
  }

  lemma GroupsFrom(n: Node, operands: seq<Node>, ops: seq<string>, i: nat)
    requires |operands| == |ops| + 1 && n.Binary? && SplitsAt(ops, i) && GroupsAt(n, operands, ops, i)
    ensures Groups(n, operands, ops)
  {
  }

  lemma Splits(ops: seq<string>, i: nat, k: nat, e: nat)
    requires i <= k < e <= |ops| && forall j :: 0 <= j < |ops| ==> Known(ops[j])
    requires forall j :: i <= j < k ==> Precedence(ops[k]) < RightMinimum(ops[j])
    requires forall j :: k < j < e ==> Precedence(ops[j]) >= RightMinimum(ops[k])
    ensures SplitsAt(ops[i..e], k - i)
  {
    hide Precedence, Alike, Tighter;
    var part := ops[i..e];
    RankOf(ops[k]);
    forall j | 0 <= j < |part|
      ensures Alike(part[j], ops[k]) || Tighter(part[j], ops[k])
      ensures ops[k] != "^" && j > k - i ==> !Alike(part[j], ops[k])
      ensures ops[k] == "^" ==> j >= k - i
    {
      assert part[j] == ops[i + j];
      RankOf(ops[i + j]);
      Ranked(part[j], ops[k]);
    }
  }

  // -------- the climb --------

  // Reading from operand k on takes every operator that binds at least `minimum`.
  lemma {:induction false} Climb(src: Source, starts: seq<State>, operands: seq<Node>, ends: seq<State>, ops: seq<string>, k: nat, minimum: int)
    returns (n: Node, e: nat)
    requires src.Valid() && Chain(src, starts, operands, ends, ops) && k <= |ops| && minimum >= 0
    ensures k <= e <= |ops| && src.Expression(minimum, starts[k]) == Done(n, ends[e])
    ensures Groups(n, operands[k..e + 1], ops[k..e])
    ensures Binds(ops, e) < minimum && forall j :: k <= j < e ==> Precedence(ops[j]) >= minimum
    decreases |ops| - k, 1
  {
    hide Source.Operators, Source.Prefix, Precedence, Source.Expression, Groups, Chain, Known;
    ChainAt(src, starts, operands, ends, ops, k);
    ExpressionIs(src, minimum, starts[k]);
    OneOperand(operands, ops, k);
    n, e := ClimbOn(src, starts, operands, ends, ops, k, k, operands[k], minimum);
  }

  // What stands at operand k and behind it.
  lemma ChainAt(src: Source, starts: seq<State>, operands: seq<Node>, ends: seq<State>, ops: seq<string>, k: nat)
    requires src.Valid() && Chain(src, starts, operands, ends, ops) && k <= |ops|
    ensures |starts| == |operands| == |ends| == |ops| + 1 && (forall j :: 0 <= j < |ops| ==> Known(ops[j]))
    ensures src.Ready(starts[k]) && src.Prefix(starts[k]) == Done(operands[k], ends[k])
    ensures src.Ready(ends[k]) && Refs(operands[k]) <= ends[k].deps
    ensures k < |ops| ==> src.Tok(ends[k]) == TOp(ops[k]) && src.Ready(starts[k + 1]) && starts[k + 1] == Advance(ends[k])
    ensures k == |ops| ==> !(src.Tok(ends[k]).TOp? && Known(src.Tok(ends[k]).op))
  {
    hide Known, Source.Prefix;
  }

  lemma ExpressionIs(src: Source, minimum: int, s: State)
    requires src.Valid() && src.Ready(s) && src.Prefix(s).node.Some?
    ensures src.Expression(minimum, s) == src.Operators(src.Prefix(s).node.value, minimum, src.Prefix(s).st)
  {
    hide Source.Operators, Source.Prefix;
  }

  lemma OneOperand(operands: seq<Node>, ops: seq<string>, k: nat)
    requires |operands| == |ops| + 1 && k <= |ops|
    ensures Gathered(operands[k], operands, ops, k, k)
  {
  }

  lemma OperatorsStep(src: Source, left: Node, minimum: int, s: State)
    requires src.Valid() && src.Ready(s) && Refs(left) <= s.deps
    ensures if !src.Tok(s).TOp? || Precedence(src.Tok(s).op) < minimum then src.Operators(left, minimum, s) == Done(left, s)
            else var right := src.Expression(RightMinimum(src.Tok(s).op), Advance(s));
                 right.node.Some? ==>
                   src.Operators(left, minimum, s) == src.Operators(Binary(src.Tok(s).op, left, right.node.value), minimum, right.st)
  {
    hide Source.Expression, Precedence, RightMinimum;
  }

  lemma {:induction false} ClimbOn(src: Source, starts: seq<State>, operands: seq<Node>, ends: seq<State>, ops: seq<string>, i: nat, k: nat, left: Node, minimum: int)
    returns (n: Node, e: nat)
    requires src.Valid() && Chain(src, starts, operands, ends, ops) && i <= k <= |ops| && minimum >= 0
    requires Gathered(left, operands, ops, i, k) && Refs(left) <= ends[k].deps && forall j :: i <= j < k ==> Precedence(ops[j]) >= minimum
    ensures k <= e <= |ops| && src.Ready(ends[k]) && src.Operators(left, minimum, ends[k]) == Done(n, ends[e])
    ensures Groups(n, operands[i..e + 1], ops[i..e])
    ensures Binds(ops, e) < minimum && forall j :: i <= j < e ==> Precedence(ops[j]) >= minimum
    decreases |ops| - k, 0
  {
    hide Source.Operators, Source.Prefix, Precedence, RightMinimum, Source.Expression, Groups, Chain, Known, Gathered;
    ChainAt(src, starts, operands, ends, ops, k);
    OperatorsStep(src, left, minimum, ends[k]);
    if k < |ops| { RankOf(ops[k]); } else if src.Tok(ends[k]).TOp? { RankOf(src.Tok(ends[k]).op); }
    if Binds(ops, k) < minimum {
      n, e := left, k;
      GatheredGroups(left, operands, ops, i, k);
    } else {
      RightIsPositive(ops[k]);
      var right, r := Climb(src, starts, operands, ends, ops, k + 1, RightMinimum(ops[k]));
      Gather(left, right, operands, ops, i, k, r);
      n, e := ClimbOn(src, starts, operands, ends, ops, i, r, Binary(ops[k], left, right), minimum);
    }
  }

  lemma GatheredGroups(n: Node, operands: seq<Node>, ops: seq<string>, i: nat, k: nat)
    requires |operands| == |ops| + 1 && i <= k <= |ops| && Gathered(n, operands, ops, i, k)
    ensures Groups(n, operands[i..k + 1], ops[i..k])
  {
  }

  lemma RightIsPositive(op: string)
    requires Precedence(op) >= 1
    ensures RightMinimum(op) >= Precedence(op) >= 1
  {
  }

  // A chain of operands, whatever they are, is read as it groups.
  lemma ChainGroups(src: Source, starts: seq<State>, operands: seq<Node>, ends: seq<State>, ops: seq<string>) returns (n: Node)
    requires src.Valid() && Chain(src, starts, operands, ends, ops)
    ensures Groups(n, operands, ops) && src.Expression(0, starts[0]) == Done(n, ends[|ops|])
  {
    hide Groups, Precedence, Source.Expression, Source.Prefix;
    var e;
    n, e := Climb(src, starts, operands, ends, ops, 0, 0);
    if e < |ops| { RankOf(ops[e]); }
    assert operands[0..e + 1] == operands && ops[0..e] == ops;
  }

  // -------- three operands --------

  // Numbers and texts, and what they are read as.
  predicate IsAtom(t: Token) { t.TWhole? || t.TDecimal? || t.TText? }

  function Atom(t: Token): Node
    requires IsAtom(t)
  {
    match t
    case TWhole(n) => Literal(Number(n as real))
    case TDecimal(x) => Literal(Number(x))
    case TText(text) => Literal(Str(text))
  }

  lemma AtomIsRead(src: Source, s: State)
    requires src.Valid() && s.pos + 1 < |src.tokens| && IsAtom(src.Tok(s)) && !src.tokens[s.pos + 1].TColon?
    ensures src.Prefix(s) == Done(Atom(src.Tok(s)), Advance(s))
  {
    assert src.Prefix(s) == src.Primary(s);
  }

  // The state before the k-th token of a formula of atoms.
  function Before(k: nat): State { State(k, {}, [], 0) }

  // `a p b q c` is a p (b q c) if q binds tighter or both are powers, and
  // otherwise (a p b) q c.
  lemma ThreeOperands(a: Token, p: string, b: Token, q: string, c: Token, scope: Scope)
    requires IsAtom(a) && IsAtom(b) && IsAtom(c) && Known(p) && Known(q)
    ensures Source([a, TOp(p), b, TOp(q), c, TEnd], scope).Formula().node
         == Some(if Tighter(q, p) || (p == "^" && q == "^") then Binary(p, Atom(a), Binary(q, Atom(b), Atom(c)))
                 else Binary(q, Binary(p, Atom(a), Atom(b)), Atom(c)))
  {
    hide Known, Source.Prefix, Source.Expression, Groups, SplitsAt, Tighter, Alike;
    var src := Source([a, TOp(p), b, TOp(q), c, TEnd], scope);
    var starts, ends := [Before(0), Before(2), Before(4)], [Before(1), Before(3), Before(5)];
    var operands, ops := [Atom(a), Atom(b), Atom(c)], [p, q];
    AtomIsRead(src, Before(0));
    AtomIsRead(src, Before(2));
    AtomIsRead(src, Before(4));
    var n := ChainGroups(src, starts, operands, ends, ops);
    TwoOperators(n, operands, p, q);
  }

  lemma TwoOperators(n: Node, operands: seq<Node>, p: string, q: string)
    requires |operands| == 3 && Known(p) && Known(q) && Groups(n, operands, [p, q])
    ensures n == if Tighter(q, p) || (p == "^" && q == "^") then Binary(p, operands[0], Binary(q, operands[1], operands[2]))
                 else Binary(q, Binary(p, operands[0], operands[1]), operands[2])
  {
    hide Known, SplitsAt, Tighter, Alike, Groups;
    var i := GroupsSplit(n, operands, [p, q]);
    SplitOfTwo(p, q, i);
    if i == 0 {
      assert [p, q][..0] == [] && [p, q][1..] == [q];
      NoOperator(n.left, operands[..1]);
      OneOperator(n.right, operands[1..], q);
    } else {
      assert [p, q][..1] == [p] && [p, q][2..] == [];
      OneOperator(n.left, operands[..2], p);
      NoOperator(n.right, operands[2..]);
    }
  }

  lemma GroupsSplit(n: Node, operands: seq<Node>, ops: seq<string>) returns (i: nat)
    requires |operands| == |ops| + 1 && ops != [] && Groups(n, operands, ops)
    ensures i < |ops| && SplitsAt(ops, i) && n.Binary? && GroupsAt(n, operands, ops, i)
  {
    i :| SplitsAt(ops, i) && GroupsAt(n, operands, ops, i);
  }

  lemma NoOperator(n: Node, operands: seq<Node>)
    requires |operands| == 1 && Groups(n, operands, [])
    ensures n == operands[0]
  {
  }

  lemma OneOperator(n: Node, operands: seq<Node>, op: string)
    requires |operands| == 2 && Groups(n, operands, [op])
    ensures n == Binary(op, operands[0], operands[1])
  {
    hide Groups, SplitsAt;
    var i := GroupsSplit(n, operands, [op]);
    assert [op][..0] == [] && [op][1..] == [];
    NoOperator(n.left, operands[..1]);
    NoOperator(n.right, operands[1..]);
  }

  lemma SplitOfTwo(p: string, q: string, i: nat)
    requires Known(p) && Known(q) && SplitsAt([p, q], i)
    ensures i == if Tighter(q, p) || (p == "^" && q == "^") then 0 else 1
  {
    hide Known, Tighter, Alike, Precedence;
    var ops := [p, q];
    assert ops[0] == p && ops[1] == q;
    RankOf(p);
    RankOf(q);
    Ranked(p, q);
    Ranked(q, p);
    Ranked(p, p);
    Ranked(q, q);
  }
}
