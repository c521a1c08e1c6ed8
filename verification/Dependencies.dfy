/**
  The parser's dependency set is enough: a formula without dynamic references
  depends on nothing but the cells the parser listed.
*/
module Dependencies {
  import opened CellAddress
  import opened FormulaSyntax
  import opened Grammar
  import opened Evaluator
  import opened Extents

  // No reference of this tree is computed while evaluating.
  ghost predicate Steady(n: Node) {
    match n
    case Literal(v) => SteadyValue(v)
    case Unary(_, operand) => Steady(operand)
    case Binary(_, left, right) => Steady(left) && Steady(right)
    case Call(_, args) => forall a :: a in args ==> Steady(a)
    case Let(_, values, body) => (forall a :: a in values ==> Steady(a)) && Steady(body)
    case Lambda(_, _, body) => Steady(body)
    case Apply(target, args) => Steady(target) && forall a :: a in args ==> Steady(a)
    case ArrayLit(_, _, items) => forall a :: a in items ==> Steady(a)
    case Dynamic(_, _, _, _, _) => false
    case _ => true
  }

  ghost predicate SteadyValue(v: Value) {
    match v
    case Array(_, _, items) => forall i :: i in items ==> SteadyValue(i)
    case Closure(_, _, body) => Steady(body)
    case _ => true
  }

  // A steady tree whose references all lie in D, functions inside values
  // included.
  ghost predicate Within(n: Node, D: set<Cell>) {
    match n
    case Literal(v) => ValueWithin(v, D)
    case Reference(c) => c in D
    case Range(_, _, cells) => forall c :: c in cells ==> c in D
    case Unary(_, operand) => Within(operand, D)
    case Binary(_, left, right) => Within(left, D) && Within(right, D)
    case Call(_, args) => forall a :: a in args ==> Within(a, D)
    case Let(_, values, body) => (forall a :: a in values ==> Within(a, D)) && Within(body, D)
    case Lambda(_, _, body) => Within(body, D)
    case Apply(target, args) => Within(target, D) && forall a :: a in args ==> Within(a, D)
    case ArrayLit(_, _, items) => forall a :: a in items ==> Within(a, D)
    case Dynamic(_, _, _, _, _) => false
    case _ => true
  }

  ghost predicate ValueWithin(v: Value, D: set<Cell>) {
    match v
    case Array(_, _, items) => forall i :: i in items ==> ValueWithin(i, D)
    case Closure(_, _, body) => Within(body, D)
    case _ => true
  }

  lemma {:induction false} SteadyWithin(n: Node, D: set<Cell>)
    requires Steady(n) && Refs(n) <= D
    ensures Within(n, D)
  {
    match n
    case Literal(v) => SteadyValueWithin(v, D);
    case Unary(_, operand) => SteadyWithin(operand, D);
    case Binary(_, left, right) =>
      SteadyWithin(left, D);
      SteadyWithin(right, D);
    case Call(_, args) => forall a | a in args ensures Within(a, D) { assert Refs(a) <= RefsAll(args); SteadyWithin(a, D); }
    case Let(_, values, body) =>
      forall a | a in values ensures Within(a, D) { assert Refs(a) <= RefsAll(values); SteadyWithin(a, D); }
      SteadyWithin(body, D);
    case Lambda(_, _, body) => SteadyWithin(body, D);
    case Apply(target, args) =>
      SteadyWithin(target, D);
      forall a | a in args ensures Within(a, D) { assert Refs(a) <= RefsAll(args); SteadyWithin(a, D); }
    case ArrayLit(_, _, items) =>
      forall a | a in items ensures Within(a, D) { assert Refs(a) <= RefsAll(items); SteadyWithin(a, D); }
    case _ =>
  }

  lemma {:induction false} SteadyValueWithin(v: Value, D: set<Cell>)
    requires SteadyValue(v) && RefsOf(v) <= D
    ensures ValueWithin(v, D)
  {
    match v
    case Array(_, _, items) => forall i | i in items ensures ValueWithin(i, D) { SteadyValueWithin(i, D); }
    case Closure(_, _, body) => SteadyWithin(body, D);
    case _ =>
  }

  // A cell holds data, never a function.
  ghost predicate Data(v: Value) {
    !v.Closure? && (v.Array? ==> forall i :: i in v.items ==> Data(i))
  }

  lemma {:induction false} DataWithin(v: Value, D: set<Cell>)
    requires Data(v)
    ensures ValueWithin(v, D)
  {
    if v.Array? {
      forall i | i in v.items ensures ValueWithin(i, D) { DataWithin(i, D); }
    }
  }

  ghost predicate AllWithin(vs: seq<Value>, D: set<Cell>) { forall v :: v in vs ==> ValueWithin(v, D) }

  ghost predicate EnvWithin(env: Env, D: set<Cell>) { forall f :: f in env ==> AllWithin(env[f], D) }

  ghost predicate ResultWithin(r: Outcome<Value>, D: set<Cell>) { r.Ok? ==> ValueWithin(r.value, D) }

  // The library hands back no function it was not given.
  ghost predicate Honest(ops: Ops, D: set<Cell>) {
    && (forall op, v :: ValueWithin(v, D) ==> ResultWithin(ops.unary(op, v), D))
    && (forall op, v, w :: ValueWithin(v, D) && ValueWithin(w, D) ==> ResultWithin(ops.binary(op, v, w), D))
    && (forall name, vs :: AllWithin(vs, D) ==> ResultWithin(ops.strict(name, vs), D))
    && (forall v :: ValueWithin(v, D) ==> ResultWithin(ops.scalar(v), D))
    && (forall v :: ValueWithin(v, D) && ops.shape(v).Some? ==> AllWithin(ops.shape(v).value.2, D))
  }

  // Two sheets, one library, and a set of cells on which the sheets agree.
  ghost predicate Setting(a: Machine, b: Machine, D: set<Cell>) {
    && a.ops == b.ops
    && Honest(a.ops, D)
    && forall c :: c in D ==> ReadCell(a.cells, c) == ReadCell(b.cells, c) && ValueWithin(ReadCell(a.cells, c), D)
  }

  lemma {:induction false} SameCells(a: Machine, b: Machine, D: set<Cell>, keys: seq<Cell>)
    requires Setting(a, b, D) && forall c :: c in keys ==> c in D
    ensures ReadCells(a.cells, keys) == ReadCells(b.cells, keys)
    ensures ReadCells(a.cells, keys).Ok? ==> AllWithin(ReadCells(a.cells, keys).value, D)
    ensures Raw(a.cells, keys) == Raw(b.cells, keys) && AllWithin(Raw(a.cells, keys), D)
  {
    if keys != [] {
      SameCells(a, b, D, keys[1..]);
    }
    assert forall i :: 0 <= i < |keys| ==> keys[i] in D;
  }

  lemma {:induction false} SameEval(a: Machine, b: Machine, D: set<Cell>, fuel: nat, n: Node, env: Env)
    requires Setting(a, b, D) && Within(n, D) && EnvWithin(env, D)
    ensures a.Eval(fuel, n, env) == b.Eval(fuel, n, env)
    ensures ResultWithin(a.Eval(fuel, n, env), D)
    decreases fuel, 0
  {
    hide Machine.Eval, Machine.EvalList, Machine.EvalLet, Machine.EvalCall, Machine.Invoke, Within;
    if fuel == 0 || Leaf(n) {
      SameLeaf(a, b, D, fuel, n, env);
    } else if n.Unary? || n.Binary? || n.ArrayLit? {
      SameOperator(a, b, D, fuel - 1, n, env);
    } else {
      SameCalling(a, b, D, fuel - 1, n, env);
    }
  }

  predicate Leaf(n: Node) {
    !n.Unary? && !n.Binary? && !n.ArrayLit? && !n.Call? && !n.Let? && !n.Apply?
  }

  lemma SameLeaf(a: Machine, b: Machine, D: set<Cell>, fuel: nat, n: Node, env: Env)
    requires Setting(a, b, D) && Within(n, D) && EnvWithin(env, D) && (fuel == 0 || Leaf(n))
    ensures a.Eval(fuel, n, env) == b.Eval(fuel, n, env)
    ensures ResultWithin(a.Eval(fuel, n, env), D)
  {
    hide Honest;
    if n.Range? { SameCells(a, b, D, n.cells); }
  }

  lemma {:induction false} SameOperator(a: Machine, b: Machine, D: set<Cell>, fuel: nat, n: Node, env: Env)
    requires Setting(a, b, D) && Within(n, D) && EnvWithin(env, D) && (n.Unary? || n.Binary? || n.ArrayLit?)
    ensures a.Eval(fuel + 1, n, env) == b.Eval(fuel + 1, n, env)
    ensures ResultWithin(a.Eval(fuel + 1, n, env), D)
    decreases fuel, 5 + if n.ArrayLit? then |n.items| else 0
  {
    hide Machine.EvalList, EnvWithin;
    match n
    case Unary(_, operand) => SameEval(a, b, D, fuel, operand, env);
    case Binary(_, left, right) => SameList(a, b, D, fuel, Stopping, [left, right], env);
    case ArrayLit(_, _, items) => SameList(a, b, D, fuel, Scalars, items, env);
  }

  lemma {:induction false} SameCalling(a: Machine, b: Machine, D: set<Cell>, fuel: nat, n: Node, env: Env)
    requires Setting(a, b, D) && Within(n, D) && EnvWithin(env, D) && (n.Call? || n.Let? || n.Apply?)
    ensures a.Eval(fuel + 1, n, env) == b.Eval(fuel + 1, n, env)
    ensures ResultWithin(a.Eval(fuel + 1, n, env), D)
    decreases fuel + 1, -1
  {
    hide Machine.EvalList, Machine.EvalLet, Machine.EvalCall, Machine.Invoke, Honest;
    match n
    case Call(name, args) => SameCall(a, b, D, fuel, name, args, env);
    case Let(f, values, body) => SameLet(a, b, D, fuel, f, values, body, env[f := []]);
    case Apply(target, args) => SameApply(a, b, D, fuel, target, args, env);
  }

  lemma {:induction false} SameApply(a: Machine, b: Machine, D: set<Cell>, fuel: nat, target: Node, args: seq<Node>, env: Env)
    requires Setting(a, b, D) && Within(target, D) && EnvWithin(env, D) && forall n :: n in args ==> Within(n, D)
    ensures var fn, vs := a.Eval(fuel, target, env), a.EvalList(fuel, Stopping, args, env);
            && fn == b.Eval(fuel, target, env) && vs == b.EvalList(fuel, Stopping, args, env)
            && (fn.Ok? && vs.Ok? ==>
                  a.Invoke(fuel, fn.value, vs.value, env) == b.Invoke(fuel, fn.value, vs.value, env)
                  && ResultWithin(a.Invoke(fuel, fn.value, vs.value, env), D))
    decreases fuel, 3 + |args|
  {
    hide Machine.Eval, Machine.EvalList, Machine.Invoke, Within;
    SameEval(a, b, D, fuel, target, env);
    SameList(a, b, D, fuel, Stopping, args, env);
    var fn, vs := a.Eval(fuel, target, env), a.EvalList(fuel, Stopping, args, env);
    if fn.Ok? && vs.Ok? { SameInvoke(a, b, D, fuel, fn.value, vs.value, env); }
  }

  lemma {:induction false} SameItem(a: Machine, b: Machine, D: set<Cell>, fuel: nat, mode: Mode, n: Node, env: Env)
    requires Setting(a, b, D) && Within(n, D) && EnvWithin(env, D)
    ensures a.EvalItem(fuel, mode, n, env) == b.EvalItem(fuel, mode, n, env)
    ensures ResultWithin(a.EvalItem(fuel, mode, n, env), D)
    decreases fuel, 1
  {
    hide Machine.Eval, EnvWithin;
    if mode.Tolerating? && n.Range? {
      SameCells(a, b, D, n.cells);
    } else {
      SameEval(a, b, D, fuel, n, env);
    }
  }

  lemma {:induction false} SameList(a: Machine, b: Machine, D: set<Cell>, fuel: nat, mode: Mode, nodes: seq<Node>, env: Env)
    requires Setting(a, b, D) && EnvWithin(env, D) && forall n :: n in nodes ==> Within(n, D)
    ensures a.EvalList(fuel, mode, nodes, env) == b.EvalList(fuel, mode, nodes, env)
    ensures a.EvalList(fuel, mode, nodes, env).Ok? ==> AllWithin(a.EvalList(fuel, mode, nodes, env).value, D)
    decreases fuel, 2 + |nodes|
  {
    hide Machine.EvalItem, Within;
    if nodes != [] {
      SameItem(a, b, D, fuel, mode, nodes[0], env);
      SameList(a, b, D, fuel, mode, nodes[1..], env);
    }
  }

  lemma {:induction false} SameLet(a: Machine, b: Machine, D: set<Cell>, fuel: nat, f: nat, values: seq<Node>, body: Node, env: Env)
    requires Setting(a, b, D) && EnvWithin(env, D) && Within(body, D) && forall n :: n in values ==> Within(n, D)
    ensures a.EvalLet(fuel, f, values, body, env) == b.EvalLet(fuel, f, values, body, env)
    ensures ResultWithin(a.EvalLet(fuel, f, values, body, env), D)
    decreases fuel, 1 + |values|
  {
    hide Machine.Eval, Within;
    if values == [] {
      SameEval(a, b, D, fuel, body, env);
    } else {
      SameEval(a, b, D, fuel, values[0], env);
      var v := a.Eval(fuel, values[0], env);
      if v.Ok? { SameLet(a, b, D, fuel, f, values[1..], body, env[f := Frame(env, f) + [v.value]]); }
    }
  }

  lemma {:induction false} SameInvoke(a: Machine, b: Machine, D: set<Cell>, fuel: nat, fn: Value, args: seq<Value>, env: Env)
    requires Setting(a, b, D) && EnvWithin(env, D) && ValueWithin(fn, D) && AllWithin(args, D)
    ensures a.Invoke(fuel, fn, args, env) == b.Invoke(fuel, fn, args, env)
    ensures ResultWithin(a.Invoke(fuel, fn, args, env), D)
    decreases fuel, 1
  {
    hide Machine.Eval;
    match fn
    case Closure(f, arity, body) =>
      if |args| <= arity { SameEval(a, b, D, fuel, body, env[f := Pad(args, arity)]); }
    case Function(name) =>
      var literals := seq(|args|, i requires 0 <= i < |args| => Literal(args[i]));
      assert forall i :: 0 <= i < |args| ==> Within(literals[i], D) by { assert forall i :: 0 <= i < |args| ==> args[i] in args; }
      SameEval(a, b, D, fuel, Call(name, literals), env);
    case _ =>
  }

  lemma {:induction false} SameCall(a: Machine, b: Machine, D: set<Cell>, fuel: nat, name: string, args: seq<Node>, env: Env)
    requires Setting(a, b, D) && EnvWithin(env, D) && forall n :: n in args ==> Within(n, D)
    ensures a.EvalCall(fuel, name, args, env) == b.EvalCall(fuel, name, args, env)
    ensures ResultWithin(a.EvalCall(fuel, name, args, env), D)
    decreases fuel, 3 + |args|
  {
    hide Machine.Eval, Machine.EvalList, Machine.EvalHelper;
    if name in {"IF", "IFERROR", "ISERROR"} {
      forall n | n in args
        ensures a.Eval(fuel, n, env) == b.Eval(fuel, n, env) && ResultWithin(a.Eval(fuel, n, env), D)
      {
        SameEval(a, b, D, fuel, n, env);
      }
      if args != [] && args[0].Range? {
        assert Within(args[0], D);
        SameCells(a, b, D, args[0].cells);
        BooleansWithin(a.ErrorAnswers(Raw(a.cells, args[0].cells)), D);
      }
    } else {
      var mode := if name != "MAP" && name != "REDUCE" && a.ops.tolerant(name) then Tolerating else Stopping;
      SameList(a, b, D, fuel, mode, args, env);
      var vs := a.EvalList(fuel, mode, args, env);
      if (name == "MAP" || name == "REDUCE") && vs.Ok? { SameHelper(a, b, D, fuel, name, vs.value, env); }
    }
  }

  lemma {:induction false} SameHelper(a: Machine, b: Machine, D: set<Cell>, fuel: nat, name: string, vs: seq<Value>, env: Env)
    requires Setting(a, b, D) && EnvWithin(env, D) && AllWithin(vs, D)
    ensures a.EvalHelper(fuel, name, vs, env) == b.EvalHelper(fuel, name, vs, env)
    ensures ResultWithin(a.EvalHelper(fuel, name, vs, env), D)
    decreases fuel, 2
  {
    hide Machine.MapRows, Machine.Fold, ValueWithin;
    if vs != [] && (vs[|vs| - 1].Closure? || vs[|vs| - 1].Function?) {
      var fn := vs[|vs| - 1];
      if name == "MAP" {
        SameShapes(a, b, D, vs[..|vs| - 1]);
        var arrays := a.Shapes(vs[..|vs| - 1]);
        if arrays.Some? && a.SameShape(arrays.value) {
          var rows := a.Rows(arrays.value);
          assert b.Rows(arrays.value) == rows;
          SameMap(a, b, D, fuel, fn, rows, env);
          var items := a.MapRows(fuel, fn, rows, env);
          if items.Ok? { WrapWithin(arrays.value[0].0, arrays.value[0].1, items.value, D); }
        }
      } else if |vs| == 3 && a.ops.shape(vs[1]).Some? {
        SameFold(a, b, D, fuel, fn, vs[0], a.ops.shape(vs[1]).value.2, env);
      }
    }
  }

  lemma BooleansWithin(vs: seq<Value>, D: set<Cell>)
    requires forall i :: 0 <= i < |vs| ==> vs[i].Boolean?
    ensures AllWithin(vs, D)
  {
  }

  lemma WrapWithin(rows: nat, columns: nat, items: seq<Value>, D: set<Cell>)
    requires AllWithin(items, D)
    ensures ValueWithin(OneOrArray(rows, columns, items), D)
  {
  }

  lemma {:induction false} SameShapes(a: Machine, b: Machine, D: set<Cell>, vs: seq<Value>)
    requires Setting(a, b, D) && AllWithin(vs, D)
    ensures a.Shapes(vs) == b.Shapes(vs)
    ensures a.Shapes(vs).Some? ==> forall i :: 0 <= i < |vs| ==> AllWithin(a.Shapes(vs).value[i].2, D)
  {
    hide ValueWithin;
    if vs != [] {
      SameShapes(a, b, D, vs[1..]);
    }
  }

  lemma {:induction false} SameMap(a: Machine, b: Machine, D: set<Cell>, fuel: nat, fn: Value, rows: seq<seq<Value>>, env: Env)
    requires Setting(a, b, D) && EnvWithin(env, D) && ValueWithin(fn, D)
    requires forall i :: 0 <= i < |rows| ==> AllWithin(rows[i], D)
    ensures a.MapRows(fuel, fn, rows, env) == b.MapRows(fuel, fn, rows, env)
    ensures a.MapRows(fuel, fn, rows, env).Ok? ==> AllWithin(a.MapRows(fuel, fn, rows, env).value, D)
    decreases fuel, 2, |rows|
  {
    hide Machine.Invoke, ValueWithin;
    if rows != [] {
      SameInvoke(a, b, D, fuel, fn, rows[0], env);
      SameMap(a, b, D, fuel, fn, rows[1..], env);
    }
  }

  lemma {:induction false} SameFold(a: Machine, b: Machine, D: set<Cell>, fuel: nat, fn: Value, carried: Value, items: seq<Value>, env: Env)
    requires Setting(a, b, D) && EnvWithin(env, D) && ValueWithin(fn, D) && ValueWithin(carried, D) && AllWithin(items, D)
    ensures a.Fold(fuel, fn, carried, items, env) == b.Fold(fuel, fn, carried, items, env)
    ensures ResultWithin(a.Fold(fuel, fn, carried, items, env), D)
    decreases fuel, 2, |items|
  {
    hide Machine.Invoke, ValueWithin;
    if items != [] {
      SameInvoke(a, b, D, fuel, fn, [carried, items[0]], env);
      var v := a.Invoke(fuel, fn, [carried, items[0]], env);
      if v.Ok? { SameFold(a, b, D, fuel, fn, v.value, items[1..], env); }
    }
  }

  // A formula read against a sheet that reaches as far as e says.
  function Reading(tokens: seq<Token>, scope: Scope, e: string -> Extent): Source {
    Source(tokens, scope.(extentOf := e))
  }

  // What a formula that parsed evaluates to on a sheet.
  function Result(src: Source, ops: Ops, cells: Sheet, fuel: nat): Outcome<Value>
    requires src.Valid() && src.Formula().node.Some?
  {
    Machine(cells, ops).Eval(fuel, src.Formula().node.value, map[])
  }

  // Two sheets, each measured and read for itself: if they agree on the
  // dependencies of the first reading, and reach equally far where the formula's
  // open references ask, a formula without dynamic references gives the same
  // value or the same error on both.
  lemma DependenciesSuffice(tokens: seq<Token>, scope: Scope, ops: Ops, before: Sheet, after: Sheet,
                            eb: string -> Extent, ea: string -> Extent, fuel: nat)
    requires Measures(eb, before.Keys) && Measures(ea, after.Keys)
    requires Twins(Reading(tokens, scope, eb), Reading(tokens, scope, ea))
    requires var p := Reading(tokens, scope, eb).Formula();
             && p.node.Some? && Steady(p.node.value) && Honest(ops, p.st.deps)
             && forall c :: c in p.st.deps ==> ReadCell(before, c) == ReadCell(after, c) && Data(ReadCell(before, c))
    ensures Reading(tokens, scope, ea).Formula() == Reading(tokens, scope, eb).Formula()
    ensures Result(Reading(tokens, scope, eb), ops, before, fuel) == Result(Reading(tokens, scope, ea), ops, after, fuel)
  {
    hide Source.Formula, Machine.Eval, Twins;
    var a, b := Reading(tokens, scope, eb), Reading(tokens, scope, ea);
    TwinTokens(a, b);
    SameFormula(a, b);
    var D, n := a.Formula().st.deps, a.Formula().node.value;
    RefsCovered(a);
    SteadyWithin(n, D);
    forall c | c in D ensures ValueWithin(ReadCell(before, c), D) { DataWithin(ReadCell(before, c), D); }
    SameEval(Machine(before, ops), Machine(after, ops), D, fuel, n, map[]);
  }

  lemma RefsCovered(src: Source)
    requires src.Valid() && src.Formula().node.Some?
    ensures Refs(src.Formula().node.value) <= src.Formula().st.deps
  {
  }

  // A formula without open references is read the same way on every sheet.
  lemma ClosedReadsAlike(tokens: seq<Token>, scope: Scope, eb: string -> Extent, ea: string -> Extent)
    requires Reading(tokens, scope, eb).Valid()
    requires forall i :: 0 <= i < |tokens| ==> !OpenColumn(tokens, i) && !OpenRow(tokens, i)
    ensures Twins(Reading(tokens, scope, eb), Reading(tokens, scope, ea))
  {
  }
}
