/**
  The rules of the remaining constructs, in the same form: references and ranges,
  array literals, ordinary functions, ISERROR, MAP and REDUCE, OFFSET and INDIRECT.
  With those of `Meaning` every construct of the language has one.
*/
module Rules {
  import opened CellAddress
  import opened FormulaSyntax
  import opened Evaluator
  import opened Meaning
  import opened Areas
  import Grammar

  // -------- leaves --------

  // The rules of the constructs that need nobody else.
  lemma LeafMeans(m: Machine, n: Node, env: Env, r: Outcome<Value>)
    ensures n.Literal? ==> (Means(m, n, env, r) <==> r == Ok(n.value))
    ensures n.ErrorLiteral? ==> (Means(m, n, env, r) <==> r == Err(n.code))
    ensures n.Lambda? ==> (Means(m, n, env, r) <==> r == Ok(Closure(n.frame, n.arity, n.body)))
    ensures n.Reference? ==>
              (Means(m, n, env, r)
               <==> if n.cell !in m.cells then r == Ok(Blank)
                    else if m.cells[n.cell].Failure? then r == Err(m.cells[n.cell].code) else r == Ok(m.cells[n.cell]))
    ensures n.Bound? ==>
              (Means(m, n, env, r)
               <==> if n.frame in env && n.index < |env[n.frame]| then r == Ok(env[n.frame][n.index]) else r == Err("#VALUE!"))
  {
    if n.Literal? || n.ErrorLiteral? || n.Lambda? || n.Reference? || n.Bound? {
      var v := m.Eval(1, n, env);
      assert Means(m, n, env, v);
      if Means(m, n, env, r) { MeansOne(m, n, env, r, v); }
    }
  }

  lemma UnaryMeans(m: Machine, op: string, a: Node, env: Env, r: Outcome<Value>)
    ensures Means(m, Unary(op, a), env, r)
       <==> (r.Err? && Means(m, a, env, r)) || exists v :: Means(m, a, env, Ok(v)) && r == m.ops.unary(op, v)
  {
    var n := Unary(op, a);
    if Means(m, n, env, r) {
      var fuel: nat :| m.Eval(fuel, n, env) == r;
      assert Means(m, a, env, m.Eval(fuel - 1, a, env));
    }
    if r.Err? && Means(m, a, env, r) {
      var fuel: nat :| m.Eval(fuel, a, env) == r;
      assert m.Eval(fuel + 1, n, env) == r;
    }
    if v :| Means(m, a, env, Ok(v)) && r == m.ops.unary(op, v) {
      var fuel: nat :| m.Eval(fuel, a, env) == Ok(v);
      assert m.Eval(fuel + 1, n, env) == r;
    }
  }

  // -------- cells --------

  // The values of cells when none fails, or the first failure.
  ghost predicate CellsMean(m: Machine, keys: seq<Cell>, r: Outcome<seq<Value>>) {
    exists vs :: Holds(m, keys, vs) && Unfailing(vs, r)
  }

  predicate Unfailing(vs: seq<Value>, r: Outcome<seq<Value>>) {
    match r
    case Ok(out) => out == vs && forall i :: 0 <= i < |vs| ==> !vs[i].Failure?
    case Err(code) => exists k :: 0 <= k < |vs| && vs[k] == Failure(code) && forall i :: 0 <= i < k ==> !vs[i].Failure?
    case Diverges => false
  }

  lemma {:induction false} ReadCellsMean(m: Machine, keys: seq<Cell>)
    ensures CellsMean(m, keys, ReadCells(m.cells, keys))
  {
    if keys == [] {
      assert Holds(m, keys, []);
    } else {
      ReadCellsMean(m, keys[1..]);
      var rest := ReadCells(m.cells, keys[1..]);
      var vs: seq<Value> :| Holds(m, keys[1..], vs) && Unfailing(vs, rest);
      var v := ReadCell(m.cells, keys[0]);
      var all := [v] + vs;
      assert Holds(m, keys, all);
      if !v.Failure? && rest.Err? {
        var k :| 0 <= k < |vs| && vs[k] == Failure(rest.code) && forall i :: 0 <= i < k ==> !vs[i].Failure?;
        assert all[k + 1] == Failure(rest.code);
        assert forall i :: 0 <= i < k + 1 ==> !all[i].Failure?;
      }
      assert Unfailing(all, ReadCells(m.cells, keys));
    }
  }

  lemma CellsMeanOne(m: Machine, keys: seq<Cell>, r: Outcome<seq<Value>>)
    ensures CellsMean(m, keys, r) <==> r == ReadCells(m.cells, keys)
  {
    hide ReadCells;
    ReadCellsMean(m, keys);
    if CellsMean(m, keys, r) {
      var vs :| Holds(m, keys, vs) && Unfailing(vs, r);
      var ws :| Holds(m, keys, ws) && Unfailing(ws, ReadCells(m.cells, keys));
      assert vs == ws;
      UnfailingOne(vs, r, ReadCells(m.cells, keys));
    }
  }

  lemma UnfailingOne(vs: seq<Value>, r: Outcome<seq<Value>>, r': Outcome<seq<Value>>)
    requires Unfailing(vs, r) && Unfailing(vs, r')
    ensures r == r'
  {
    if r.Err? && r'.Err? {
      var k :| 0 <= k < |vs| && vs[k] == Failure(r.code) && forall i :: 0 <= i < k ==> !vs[i].Failure?;
      var j :| 0 <= j < |vs| && vs[j] == Failure(r'.code) && forall i :: 0 <= i < j ==> !vs[i].Failure?;
      assert j == k;
    }
  }

  // A range means its cells' values row by row, or the first failing cell's error.
  lemma RangeMeans(m: Machine, rows: nat, columns: nat, keys: seq<Cell>, env: Env, r: Outcome<Value>)
    ensures Means(m, Range(rows, columns, keys), env, r)
       <==> if rows * columns > 100000 then r == Err("#VALUE!")
            else || (r.Err? && CellsMean(m, keys, Err(r.code)))
                 || exists vs :: CellsMean(m, keys, Ok(vs)) && r == Ok(Array(rows, columns, vs))
  {
    hide ReadCells;
    var n := Range(rows, columns, keys);
    var v := m.Eval(1, n, env);
    forall c ensures CellsMean(m, keys, c) <==> c == ReadCells(m.cells, keys) { CellsMeanOne(m, keys, c); }
    NeverDiverges(m, keys);
    assert v == m.EvalRange(rows, columns, keys);
    assert Means(m, n, env, v);
    if Means(m, n, env, r) { MeansOne(m, n, env, r, v); }
  }

  lemma NeverDiverges(m: Machine, keys: seq<Cell>)
    ensures !ReadCells(m.cells, keys).Diverges?
  {
    ReadCellsMean(m, keys);
  }

  // -------- constructs that evaluate a list and then work on values --------

  function Then(list: Outcome<seq<Value>>, f: seq<Value> -> Outcome<Value>): Outcome<Value> {
    match list
    case Ok(vs) => f(vs)
    case Err(code) => Err(code)
    case Diverges => Diverges
  }

  ghost predicate Follows(m: Machine, n: Node, mode: Mode, nodes: seq<Node>, env: Env, f: seq<Value> -> Outcome<Value>) {
    && m.Eval(0, n, env).Diverges? && (forall fuel: nat :: m.Eval(fuel + 1, n, env) == Then(m.EvalList(fuel, mode, nodes, env), f))
    && forall vs :: |vs| == |nodes| ==> !f(vs).Diverges?
  }

  ghost predicate ListThenMeans(m: Machine, mode: Mode, nodes: seq<Node>, env: Env, f: seq<Value> -> Outcome<Value>, r: Outcome<Value>) {
    (r.Err? && FirstError(m, mode, nodes, env, r.code)) || exists vs :: AllMean(m, mode, nodes, env, vs) && r == f(vs)
  }

  lemma ListThen(m: Machine, n: Node, mode: Mode, nodes: seq<Node>, env: Env, f: seq<Value> -> Outcome<Value>, r: Outcome<Value>)
    requires Follows(m, n, mode, nodes, env, f)
    ensures Means(m, n, env, r) <==> ListThenMeans(m, mode, nodes, env, f, r)
  {
    hide Machine.Eval, Machine.EvalList, AllMean, FirstError;
    if Means(m, n, env, r) {
      var fuel: nat :| m.Eval(fuel, n, env) == r;
      assert fuel > 0;
      var k: nat := fuel - 1;
      assert m.Eval(k + 1, n, env) == Then(m.EvalList(k, mode, nodes, env), f);
      ListGives(m, k, mode, nodes, env);
    }
    if r.Err? && FirstError(m, mode, nodes, env, r.code) {
      var fuel := ListTakes(m, mode, nodes, env, Err(r.code));
      assert m.Eval(fuel + 1, n, env) == r;
    }
    if vs :| AllMean(m, mode, nodes, env, vs) && r == f(vs) {
      var fuel := ListTakes(m, mode, nodes, env, Ok(vs));
      assert m.Eval(fuel + 1, n, env) == r && |vs| == |nodes|;
    }
  }

  // An array literal means its items in place, each a single value.
  lemma ArrayMeans(m: Machine, rows: nat, columns: nat, items: seq<Node>, env: Env, r: Outcome<Value>)
    ensures Means(m, ArrayLit(rows, columns, items), env, r)
       <==> || (r.Err? && FirstError(m, Scalars, items, env, r.code))
            || exists vs :: AllMean(m, Scalars, items, env, vs) && r == Ok(Array(rows, columns, vs))
  {
    hide Machine.EvalList, AllMean, FirstError;
    ListThen(m, ArrayLit(rows, columns, items), Scalars, items, env, vs => Ok(Array(rows, columns, vs)), r);
  }

  // An ordinary function stops at the first argument that fails; a tolerant one is
  // given failures as values and ranges cell by cell.
  lemma FunctionMeans(m: Machine, name: string, args: seq<Node>, env: Env, r: Outcome<Value>)
    requires name !in {"IF", "IFERROR", "ISERROR", "MAP", "REDUCE"}
    ensures var mode := if m.ops.tolerant(name) then Tolerating else Stopping;
            Means(m, Call(name, args), env, r)
            <==> || (r.Err? && FirstError(m, mode, args, env, r.code))
                 || exists vs :: AllMean(m, mode, args, env, vs) && r == m.ops.strict(name, vs)
  {
    hide Machine.EvalList, AllMean, FirstError;
    var mode, n := if m.ops.tolerant(name) then Tolerating else Stopping, Call(name, args);
    var f: seq<Value> -> Outcome<Value> := vs => m.ops.strict(name, vs);
    forall fuel: nat ensures m.Eval(fuel + 1, n, env) == Then(m.EvalList(fuel, mode, args, env), f) {
      assert m.Eval(fuel + 1, n, env) == m.EvalCall(fuel, name, args, env);
    }
    ListThen(m, n, mode, args, env, f, r);
  }

  // -------- ISERROR --------

  // ISERROR of a range answers cell by cell, of anything else whether it is an
  // error or looks like one; an error never gets out.
  lemma IsErrorMeans(m: Machine, args: seq<Node>, env: Env, r: Outcome<Value>)
    ensures Means(m, Call("ISERROR", args), env, r)
       <==> if |args| != 1 then r == Err("#VALUE!")
            else if args[0].Range? then
              exists vs :: Holds(m, args[0].cells, vs) && r.Ok? && r.value.Array? && r.value.rows == args[0].rows && r.value.columns == args[0].columns
                           && Answers(m, vs, r.value.items)
            else || (r == Ok(Boolean(true)) && exists code :: Means(m, args[0], env, Err(code)))
                 || exists v :: Means(m, args[0], env, Ok(v)) && r == Ok(Boolean(m.ops.looksLikeError(v)))
  {
    hide Machine.Eval;
    var n := Call("ISERROR", args);
    if |args| != 1 || args[0].Range? {
      var v := IsErrorAtOnce(m, args, env);
      if Means(m, n, env, r) { MeansOne(m, n, env, r, v); }
      if |args| == 1 && args[0].Range? {
        var vs := Raw(m.cells, args[0].cells);
        RawHolds(m, args[0].cells, vs);
        forall ws | Holds(m, args[0].cells, ws) ensures ws == vs { RawHolds(m, args[0].cells, ws); }
        forall out | Answers(m, vs, out) ensures out == m.ErrorAnswers(vs) {}
      }
    } else {
      IsErrorOfValue(m, args[0], env, r);
      assert args == [args[0]];
    }
  }

  ghost predicate Answers(m: Machine, vs: seq<Value>, out: seq<Value>) {
    |out| == |vs| && forall i :: 0 <= i < |vs| ==> out[i] == Boolean(vs[i].Failure? || m.ops.looksLikeError(vs[i]))
  }

  lemma IsErrorAtOnce(m: Machine, args: seq<Node>, env: Env) returns (v: Outcome<Value>)
    requires |args| != 1 || args[0].Range?
    ensures Means(m, Call("ISERROR", args), env, v)
    ensures v == if |args| != 1 then Err("#VALUE!")
                 else Ok(Array(args[0].rows, args[0].columns, m.ErrorAnswers(Raw(m.cells, args[0].cells))))
  {
    v := m.Eval(1, Call("ISERROR", args), env);
    assert v == m.EvalCall(0, "ISERROR", args, env);
  }

  lemma IsErrorOfValue(m: Machine, a: Node, env: Env, r: Outcome<Value>)
    requires !a.Range?
    ensures Means(m, Call("ISERROR", [a]), env, r)
       <==> || (r == Ok(Boolean(true)) && exists code :: Means(m, a, env, Err(code)))
            || exists v :: Means(m, a, env, Ok(v)) && r == Ok(Boolean(m.ops.looksLikeError(v)))
  {
    hide Machine.Eval;
    var n := Call("ISERROR", [a]);
    if Means(m, n, env, r) {
      var fuel: nat :| m.Eval(fuel, n, env) == r;
      NoFuel(m, n, env);
      IsErrorStep(m, fuel - 1, a, env);
      assert Means(m, a, env, m.Eval(fuel - 1, a, env));
    }
    if code :| r == Ok(Boolean(true)) && Means(m, a, env, Err(code)) {
      var fuel: nat :| m.Eval(fuel, a, env) == Err(code);
      IsErrorStep(m, fuel, a, env);
      assert m.Eval(fuel + 1, n, env) == r;
    }
    if v :| Means(m, a, env, Ok(v)) && r == Ok(Boolean(m.ops.looksLikeError(v))) {
      var fuel: nat :| m.Eval(fuel, a, env) == Ok(v);
      IsErrorStep(m, fuel, a, env);
      assert m.Eval(fuel + 1, n, env) == r;
    }
  }

  lemma NoFuel(m: Machine, n: Node, env: Env)
    ensures m.Eval(0, n, env) == Diverges
  {
  }

  lemma IsErrorStep(m: Machine, fuel: nat, a: Node, env: Env)
    requires !a.Range?
    ensures m.Eval(fuel + 1, Call("ISERROR", [a]), env)
         == match m.Eval(fuel, a, env)
            case Ok(v) => Ok(Boolean(m.ops.looksLikeError(v)))
            case Err(_) => Ok(Boolean(true))
            case Diverges => Diverges
  {
    assert m.Eval(fuel + 1, Call("ISERROR", [a]), env) == m.EvalCall(fuel, "ISERROR", [a], env);
  }

  // -------- REDUCE --------

  predicate IsFunction(v: Value) { v.Closure? || v.Function? }

  // The value carried so far: first the given one, then what the function means on
  // the carried value and the item, in that order.
  ghost predicate Carried(m: Machine, fn: Value, first: Value, items: seq<Value>, env: Env, c: seq<Value>) {
    && 1 <= |c| <= |items| + 1 && c[0] == first
    && forall i :: 0 <= i < |c| - 1 ==> InvokeMeans(m, fn, [c[i], items[i]], env, Ok(c[i + 1]))
  }

  // The last carried value, or the error of the call that failed.
  ghost predicate CarriedTo(m: Machine, fn: Value, items: seq<Value>, env: Env, c: seq<Value>, r: Outcome<Value>)
    requires 1 <= |c| <= |items| + 1
  {
    var k := |c| - 1;
    if k == |items| then r == Ok(c[k]) else r.Err? && InvokeMeans(m, fn, [c[k], items[k]], env, r)
  }

  ghost predicate Reduces(m: Machine, vs: seq<Value>, env: Env, r: Outcome<Value>) {
    if |vs| != 3 || !IsFunction(vs[2]) || m.ops.shape(vs[1]).None? then r == Err("#VALUE!")
    else CarriesTo(m, vs[2], vs[0], m.ops.shape(vs[1]).value.2, env, r)
  }

  ghost predicate ListReduces(m: Machine, args: seq<Node>, env: Env, r: Outcome<Value>) {
    exists vs :: AllMean(m, Stopping, args, env, vs) && Reduces(m, vs, env, r)
  }

  ghost predicate CarriesTo(m: Machine, fn: Value, first: Value, items: seq<Value>, env: Env, r: Outcome<Value>) {
    exists c :: Carried(m, fn, first, items, env, c) && CarriedTo(m, fn, items, env, c, r)
  }

  // REDUCE(first, array, function): the function is called on what is carried and
  // on each item in turn.
  lemma ReduceMeans(m: Machine, args: seq<Node>, env: Env, r: Outcome<Value>)
    ensures Means(m, Call("REDUCE", args), env, r)
       <==> if |args| < 2 then r == Err("#VALUE!")
            else (r.Err? && FirstError(m, Stopping, args, env, r.code)) || ListReduces(m, args, env, r)
  {
    hide Machine.Eval, Machine.EvalHelper, AllMean, FirstError, Reduces;
    var n := Call("REDUCE", args);
    if |args| < 2 {
      HelperRefused(m, "REDUCE", args, env);
      if Means(m, n, env, r) { MeansOne(m, n, env, r, Err("#VALUE!")); }
    } else {
      if Means(m, n, env, r) {
        var vs, fuel := HelperGives(m, "REDUCE", args, env, r);
        if vs.Some? { ReduceGives(m, fuel, vs.value, env, r); }
      }
      if r.Err? && FirstError(m, Stopping, args, env, r.code) { HelperFails(m, "REDUCE", args, env, r.code); }
      if ListReduces(m, args, env, r) {
        var vs :| AllMean(m, Stopping, args, env, vs) && Reduces(m, vs, env, r);
        AllLength(m, Stopping, args, env, vs);
        var fuel := ReduceTakes(m, vs, env, r);
        HelperTakes(m, "REDUCE", args, env, vs, fuel, r);
      }
    }
  }

  lemma AllLength(m: Machine, mode: Mode, nodes: seq<Node>, env: Env, vs: seq<Value>)
    requires AllMean(m, mode, nodes, env, vs)
    ensures |vs| == |nodes|
  {
  }

  lemma {:induction false} HelperStep(m: Machine, fuel: nat, name: string, args: seq<Node>, env: Env)
    requires name in {"MAP", "REDUCE"}
    ensures m.Eval(fuel + 1, Call(name, args), env)
         == if |args| < 2 then Err("#VALUE!")
            else match m.EvalList(fuel, Stopping, args, env)
                 case Ok(vs) => m.EvalHelper(fuel, name, vs, env)
                 case Err(code) => Err(code)
                 case Diverges => Diverges
  {
    assert m.Eval(fuel + 1, Call(name, args), env) == m.EvalCall(fuel, name, args, env);
  }

  lemma HelperRefused(m: Machine, name: string, args: seq<Node>, env: Env)
    requires name in {"MAP", "REDUCE"} && |args| < 2
    ensures Means(m, Call(name, args), env, Err("#VALUE!"))
  {
    hide Machine.Eval;
    HelperStep(m, 0, name, args, env);
    assert m.Eval(1, Call(name, args), env) == Err("#VALUE!");
  }

  lemma HelperFails(m: Machine, name: string, args: seq<Node>, env: Env, code: string)
    requires name in {"MAP", "REDUCE"} && |args| >= 2 && FirstError(m, Stopping, args, env, code)
    ensures Means(m, Call(name, args), env, Err(code))
  {
    hide Machine.Eval, Machine.EvalList, FirstError;
    var fuel := ListTakes(m, Stopping, args, env, Err(code));
    HelperStep(m, fuel, name, args, env);
    assert m.Eval(fuel + 1, Call(name, args), env) == Err(code);
  }

  // Either an argument failed, or the helper worked on what the arguments mean.
  lemma HelperGives(m: Machine, name: string, args: seq<Node>, env: Env, r: Outcome<Value>) returns (vs: Option<seq<Value>>, fuel: nat)
    requires name in {"MAP", "REDUCE"} && |args| >= 2 && Means(m, Call(name, args), env, r)
    ensures !r.Diverges?
    ensures vs.None? ==> r.Err? && FirstError(m, Stopping, args, env, r.code)
    ensures vs.Some? ==> |vs.value| == |args| && AllMean(m, Stopping, args, env, vs.value) && m.EvalHelper(fuel, name, vs.value, env) == r
  {
    hide Machine.Eval, Machine.EvalHelper, FirstError;
    var k: nat :| m.Eval(k, Call(name, args), env) == r;
    NoFuel(m, Call(name, args), env);
    fuel := k - 1;
    HelperStep(m, fuel, name, args, env);
    ListGives(m, fuel, Stopping, args, env);
    var list := m.EvalList(fuel, Stopping, args, env);
    vs := if list.Ok? then Some(list.value) else None;
  }

  lemma HelperTakes(m: Machine, name: string, args: seq<Node>, env: Env, vs: seq<Value>, fuel: nat, r: Outcome<Value>)
    requires name in {"MAP", "REDUCE"} && |args| >= 2 && AllMean(m, Stopping, args, env, vs)
    requires m.EvalHelper(fuel, name, vs, env) == r && !r.Diverges?
    ensures Means(m, Call(name, args), env, r)
  {
    hide Machine.Eval, Machine.EvalHelper, Machine.EvalList, AllMean;
    var a := ListTakes(m, Stopping, args, env, Ok(vs));
    var b := if a <= fuel then fuel else a;
    ListEnough(m, a, b, Stopping, args, env);
    HelperEnough(m, fuel, b, name, vs, env);
    HelperStep(m, b, name, args, env);
    assert m.Eval(b + 1, Call(name, args), env) == r;
  }

  lemma {:induction false} HelperEnough(m: Machine, a: nat, b: nat, name: string, vs: seq<Value>, env: Env)
    requires a <= b && !m.EvalHelper(a, name, vs, env).Diverges?
    ensures m.EvalHelper(b, name, vs, env) == m.EvalHelper(a, name, vs, env)
    decreases b - a
  {
    hide Machine.EvalHelper;
    if a < b {
      MoreHelper(m, a, name, vs, env);
      HelperEnough(m, a + 1, b, name, vs, env);
    }
  }

  lemma ReduceGives(m: Machine, fuel: nat, vs: seq<Value>, env: Env, r: Outcome<Value>)
    requires |vs| >= 2 && !r.Diverges? && m.EvalHelper(fuel, "REDUCE", vs, env) == r
    ensures Reduces(m, vs, env, r)
  {
    hide Machine.Fold;
    if |vs| == 3 && IsFunction(vs[2]) && m.ops.shape(vs[1]).Some? {
      var c := FoldGives(m, fuel, vs[2], vs[0], m.ops.shape(vs[1]).value.2, env, r);
    }
  }

  lemma ReduceTakes(m: Machine, vs: seq<Value>, env: Env, r: Outcome<Value>) returns (fuel: nat)
    requires |vs| >= 2 && Reduces(m, vs, env, r)
    ensures m.EvalHelper(fuel, "REDUCE", vs, env) == r && !r.Diverges?
  {
    hide Machine.Fold;
    fuel := 0;
    if |vs| == 3 && IsFunction(vs[2]) && m.ops.shape(vs[1]).Some? {
      var items := m.ops.shape(vs[1]).value.2;
      var c :| Carried(m, vs[2], vs[0], items, env, c) && CarriedTo(m, vs[2], items, env, c, r);
      fuel := FoldTakes(m, vs[2], items, env, c, 0, r);
      assert items[0..] == items;
    }
  }

  lemma {:induction false} FoldStep(m: Machine, fuel: nat, fn: Value, carried: Value, items: seq<Value>, env: Env)
    requires items != []
    ensures m.Fold(fuel, fn, carried, items, env)
         == match m.Invoke(fuel, fn, [carried, items[0]], env)
            case Ok(v) => m.Fold(fuel, fn, v, items[1..], env)
            case other => other
  {
    hide Machine.Invoke;
  }

  lemma FoldEnds(m: Machine, fuel: nat, fn: Value, carried: Value, env: Env)
    ensures m.Fold(fuel, fn, carried, [], env) == Ok(carried)
  {
  }

  lemma {:induction false} FoldGives(m: Machine, fuel: nat, fn: Value, first: Value, items: seq<Value>, env: Env, r: Outcome<Value>)
    returns (c: seq<Value>)
    requires !r.Diverges? && m.Fold(fuel, fn, first, items, env) == r
    ensures Carried(m, fn, first, items, env, c) && CarriedTo(m, fn, items, env, c, r)
    decreases |items|
  {
    hide Machine.Invoke, Machine.Fold, InvokeMeans;
    c := [first];
    if items == [] {
      FoldEnds(m, fuel, fn, first, env);
    } else {
      FoldStep(m, fuel, fn, first, items, env);
      var v := m.Invoke(fuel, fn, [first, items[0]], env);
      InvokeGives(m, fuel, fn, [first, items[0]], env, v);
      if v.Ok? {
        var rest := FoldGives(m, fuel, fn, v.value, items[1..], env, r);
        c := [first] + rest;
        forall i | 0 <= i < |c| - 1 ensures InvokeMeans(m, fn, [c[i], items[i]], env, Ok(c[i + 1])) {
          if i > 0 { assert items[i] == items[1..][i - 1] && c[i] == rest[i - 1] && c[i + 1] == rest[i]; }
        }
        if |c| <= |items| { assert items[|c| - 1] == items[1..][|rest| - 1]; }
      }
    }
  }

  lemma {:induction false} FoldTakes(m: Machine, fn: Value, items: seq<Value>, env: Env, c: seq<Value>, k: nat, r: Outcome<Value>)
    returns (fuel: nat)
    requires k < |c| && Carried(m, fn, c[0], items, env, c) && CarriedTo(m, fn, items, env, c, r)
    ensures m.Fold(fuel, fn, c[k], items[k..], env) == r && !r.Diverges?
    decreases |c| - k
  {
    hide Machine.Invoke, Machine.Fold, InvokeMeans;
    if k < |items| { assert items[k..][0] == items[k] && items[k..][1..] == items[k + 1..]; }
    if k == |c| - 1 {
      if k == |items| {
        fuel := 0;
        assert items[k..] == [];
        FoldEnds(m, fuel, fn, c[k], env);
      } else {
        fuel := InvokeTakes(m, fn, [c[k], items[k]], env, r);
        FoldStep(m, fuel, fn, c[k], items[k..], env);
      }
    } else {
      var a := FoldTakes(m, fn, items, env, c, k + 1, r);
      var b := InvokeTakes(m, fn, [c[k], items[k]], env, Ok(c[k + 1]));
      fuel := if a <= b then b else a;
      FoldEnough(m, a, fuel, fn, c[k + 1], items[k + 1..], env);
      InvokeEnough(m, b, fuel, fn, [c[k], items[k]], env);
      FoldStep(m, fuel, fn, c[k], items[k..], env);
    }
  }

  lemma {:induction false} FoldEnough(m: Machine, a: nat, b: nat, fn: Value, carried: Value, items: seq<Value>, env: Env)
    requires a <= b && !m.Fold(a, fn, carried, items, env).Diverges?
    ensures m.Fold(b, fn, carried, items, env) == m.Fold(a, fn, carried, items, env)
    decreases b - a
  {
    hide Machine.Fold;
    if a < b {
      MoreFold(m, a, fn, carried, items, env);
      FoldEnough(m, a + 1, b, fn, carried, items, env);
    }
  }

  // -------- MAP --------

  // Every one of the values is an array of the first one's shape.
  ghost predicate Congruent(m: Machine, vs: seq<Value>) {
    && vs != [] && (forall j :: 0 <= j < |vs| ==> m.ops.shape(vs[j]).Some?)
    && var (rows, columns, items) := m.ops.shape(vs[0]).value;
    forall j :: 0 <= j < |vs| ==>
                  m.ops.shape(vs[j]).value.0 == rows && m.ops.shape(vs[j]).value.1 == columns && |m.ops.shape(vs[j]).value.2| == |items|
  }

  // The i-th items of all the arrays.
  ghost function Across(m: Machine, vs: seq<Value>, i: nat): (row: seq<Value>)
    requires Congruent(m, vs) && i < |m.ops.shape(vs[0]).value.2|
    ensures |row| == |vs|
  {
    seq(|vs|, j requires 0 <= j < |vs| => m.ops.shape(vs[j]).value.2[i])
  }

  // The first results, each of its own items.
  ghost predicate Results(m: Machine, fn: Value, vs: seq<Value>, env: Env, out: seq<Value>)
    requires Congruent(m, vs)
  {
    |out| <= |m.ops.shape(vs[0]).value.2| && forall i :: 0 <= i < |out| ==> InvokeMeans(m, fn, Across(m, vs, i), env, Ok(out[i]))
  }

  // All of them in the arrays' shape, a single one by itself, or the error of the
  // call that failed.
  ghost predicate ResultsTo(m: Machine, fn: Value, vs: seq<Value>, env: Env, out: seq<Value>, r: Outcome<Value>)
    requires Congruent(m, vs) && |out| <= |m.ops.shape(vs[0]).value.2|
  {
    var (rows, columns, items) := m.ops.shape(vs[0]).value;
    if |out| == |items| then r == Ok(if rows == 1 && columns == 1 && |items| == 1 then out[0] else Array(rows, columns, out))
    else r.Err? && InvokeMeans(m, fn, Across(m, vs, |out|), env, r)
  }

  ghost predicate Maps(m: Machine, vs: seq<Value>, env: Env, r: Outcome<Value>) {
    if |vs| < 2 || !IsFunction(vs[|vs| - 1]) || !Congruent(m, vs[..|vs| - 1]) then r == Err("#VALUE!")
    else MapsTo(m, vs[|vs| - 1], vs[..|vs| - 1], env, r)
  }

  ghost predicate ListMaps(m: Machine, args: seq<Node>, env: Env, r: Outcome<Value>) {
    exists vs :: AllMean(m, Stopping, args, env, vs) && Maps(m, vs, env, r)
  }

  ghost predicate MapsTo(m: Machine, fn: Value, vs: seq<Value>, env: Env, r: Outcome<Value>)
    requires Congruent(m, vs)
  {
    exists out :: Results(m, fn, vs, env, out) && ResultsTo(m, fn, vs, env, out, r)
  }

  // MAP(arrays…, function): the i-th result is the function of the i-th items, and
  // the shape is kept.
  lemma MapMeans(m: Machine, args: seq<Node>, env: Env, r: Outcome<Value>)
    ensures Means(m, Call("MAP", args), env, r)
       <==> if |args| < 2 then r == Err("#VALUE!")
            else (r.Err? && FirstError(m, Stopping, args, env, r.code)) || ListMaps(m, args, env, r)
  {
    hide Machine.Eval, Machine.EvalHelper, AllMean, FirstError, Maps;
    var n := Call("MAP", args);
    if |args| < 2 {
      HelperRefused(m, "MAP", args, env);
      if Means(m, n, env, r) { MeansOne(m, n, env, r, Err("#VALUE!")); }
    } else {
      if Means(m, n, env, r) {
        var vs, fuel := HelperGives(m, "MAP", args, env, r);
        if vs.Some? { MapGives(m, fuel, vs.value, env, r); }
      }
      if r.Err? && FirstError(m, Stopping, args, env, r.code) { HelperFails(m, "MAP", args, env, r.code); }
      if ListMaps(m, args, env, r) {
        var vs :| AllMean(m, Stopping, args, env, vs) && Maps(m, vs, env, r);
        AllLength(m, Stopping, args, env, vs);
        var fuel := MapTakes(m, vs, env, r);
        HelperTakes(m, "MAP", args, env, vs, fuel, r);
      }
    }
  }

  lemma {:induction false} ShapesAre(m: Machine, vs: seq<Value>)
    ensures m.Shapes(vs).Some? <==> forall j :: 0 <= j < |vs| ==> m.ops.shape(vs[j]).Some?
    ensures m.Shapes(vs).Some? ==> forall j :: 0 <= j < |vs| ==> m.ops.shape(vs[j]).Some? && m.Shapes(vs).value[j] == m.ops.shape(vs[j]).value
  {
    if vs != [] {
      ShapesAre(m, vs[1..]);
      assert forall j :: 0 < j < |vs| ==> vs[j] == vs[1..][j - 1];
      assert forall j :: 0 <= j < |vs| - 1 ==> vs[1..][j] == vs[j + 1];
    }
  }

  // The helper's way of asking the same.
  lemma Shaped(m: Machine, vs: seq<Value>)
    ensures Congruent(m, vs) <==> m.Shapes(vs).Some? && m.SameShape(m.Shapes(vs).value)
    ensures Congruent(m, vs) ==>
              var arrays := m.Shapes(vs).value;
              arrays[0] == m.ops.shape(vs[0]).value && |m.Rows(arrays)| == |arrays[0].2|
              && forall i :: 0 <= i < |arrays[0].2| ==> m.Rows(arrays)[i] == Across(m, vs, i)
  {
    ShapesAre(m, vs);
  }

  lemma MapGives(m: Machine, fuel: nat, vs: seq<Value>, env: Env, r: Outcome<Value>)
    requires |vs| >= 2 && !r.Diverges? && m.EvalHelper(fuel, "MAP", vs, env) == r
    ensures Maps(m, vs, env, r)
  {
    hide Machine.MapRows, Machine.Shapes, Machine.Rows, Machine.SameShape, Congruent, InvokeMeans;
    var fn, arrays := vs[|vs| - 1], vs[..|vs| - 1];
    Shaped(m, arrays);
    if IsFunction(fn) && Congruent(m, arrays) {
      var rows := m.Rows(m.Shapes(arrays).value);
      var list := m.MapRows(fuel, fn, rows, env);
      var out := RowsGive(m, fuel, fn, rows, env, list);
      FromRows(m, fn, arrays, rows, env, out);
    }
  }

  lemma FromRows(m: Machine, fn: Value, vs: seq<Value>, rows: seq<seq<Value>>, env: Env, out: seq<Value>)
    requires Congruent(m, vs) && |rows| == |m.ops.shape(vs[0]).value.2| && forall i :: 0 <= i < |rows| ==> rows[i] == Across(m, vs, i)
    ensures Results(m, fn, vs, env, out) <==> RowResults(m, fn, rows, env, out)
  {
    hide InvokeMeans, Congruent, Across;
  }

  lemma MapTakes(m: Machine, vs: seq<Value>, env: Env, r: Outcome<Value>) returns (fuel: nat)
    requires |vs| >= 2 && Maps(m, vs, env, r)
    ensures m.EvalHelper(fuel, "MAP", vs, env) == r && !r.Diverges?
  {
    hide Machine.MapRows, Machine.Shapes, Machine.Rows, Machine.SameShape, Congruent, InvokeMeans;
    fuel := 0;
    var fn, arrays := vs[|vs| - 1], vs[..|vs| - 1];
    Shaped(m, arrays);
    if IsFunction(fn) && Congruent(m, arrays) {
      var rows := m.Rows(m.Shapes(arrays).value);
      var out :| Results(m, fn, arrays, env, out) && ResultsTo(m, fn, arrays, env, out, r);
      FromRows(m, fn, arrays, rows, env, out);
      var list := if |out| == |rows| then Ok(out) else Err(r.code);
      fuel := RowsTake(m, fn, rows, env, out, 0, list);
      assert rows[0..] == rows && out[0..] == out;
    }
  }

  // The calls of MAP on the rows of items.
  ghost predicate RowResults(m: Machine, fn: Value, rows: seq<seq<Value>>, env: Env, out: seq<Value>) {
    |out| <= |rows| && forall i :: 0 <= i < |out| ==> InvokeMeans(m, fn, rows[i], env, Ok(out[i]))
  }

  ghost predicate RowsTo(m: Machine, fn: Value, rows: seq<seq<Value>>, env: Env, out: seq<Value>, r: Outcome<seq<Value>>)
    requires |out| <= |rows|
  {
    if |out| == |rows| then r == Ok(out) else r.Err? && InvokeMeans(m, fn, rows[|out|], env, Err(r.code))
  }

  lemma {:induction false} RowStep(m: Machine, fuel: nat, fn: Value, rows: seq<seq<Value>>, env: Env)
    ensures m.MapRows(fuel, fn, rows, env)
         == if rows == [] then Ok([])
            else match m.Invoke(fuel, fn, rows[0], env)
                 case Ok(v) => Prepended(v, m.MapRows(fuel, fn, rows[1..], env))
                 case Err(code) => Err(code)
                 case Diverges => Diverges
  {
    hide Machine.Invoke;
  }

  lemma {:induction false} RowsGive(m: Machine, fuel: nat, fn: Value, rows: seq<seq<Value>>, env: Env, r: Outcome<seq<Value>>)
    returns (out: seq<Value>)
    requires !r.Diverges? && m.MapRows(fuel, fn, rows, env) == r
    ensures RowResults(m, fn, rows, env, out) && RowsTo(m, fn, rows, env, out, r)
    decreases |rows|
  {
    hide Machine.Invoke, Machine.MapRows, InvokeMeans;
    RowStep(m, fuel, fn, rows, env);
    out := [];
    if rows != [] {
      var v := m.Invoke(fuel, fn, rows[0], env);
      InvokeGives(m, fuel, fn, rows[0], env, v);
      if v.Ok? {
        var rest := m.MapRows(fuel, fn, rows[1..], env);
        var later := RowsGive(m, fuel, fn, rows[1..], env, rest);
        out := [v.value] + later;
        forall i | 0 <= i < |out| ensures InvokeMeans(m, fn, rows[i], env, Ok(out[i])) {
          if i > 0 { assert rows[i] == rows[1..][i - 1] && out[i] == later[i - 1]; }
        }
        if |out| < |rows| { assert rows[|out|] == rows[1..][|later|]; }
      }
    }
  }

  lemma {:induction false} RowsTake(m: Machine, fn: Value, rows: seq<seq<Value>>, env: Env, out: seq<Value>, k: nat, r: Outcome<seq<Value>>)
    returns (fuel: nat)
    requires k <= |out| && RowResults(m, fn, rows, env, out) && RowsTo(m, fn, rows, env, out, r)
    ensures m.MapRows(fuel, fn, rows[k..], env) == if r.Ok? then Ok(out[k..]) else r
    decreases |out| - k
  {
    hide Machine.Invoke, Machine.MapRows, InvokeMeans;
    if k < |rows| { assert rows[k..][0] == rows[k] && rows[k..][1..] == rows[k + 1..]; }
    if k == |out| {
      if k == |rows| {
        fuel := 0;
        assert rows[k..] == [] && out[k..] == [];
      } else {
        fuel := InvokeTakes(m, fn, rows[k], env, Err(r.code));
      }
      RowStep(m, fuel, fn, rows[k..], env);
    } else {
      var a := RowsTake(m, fn, rows, env, out, k + 1, r);
      var b := InvokeTakes(m, fn, rows[k], env, Ok(out[k]));
      fuel := if a <= b then b else a;
      RowsEnough(m, a, fuel, fn, rows[k + 1..], env);
      InvokeEnough(m, b, fuel, fn, rows[k], env);
      RowStep(m, fuel, fn, rows[k..], env);
      assert out[k..] == [out[k]] + out[k + 1..];
    }
  }

  lemma {:induction false} RowsEnough(m: Machine, a: nat, b: nat, fn: Value, rows: seq<seq<Value>>, env: Env)
    requires a <= b && !m.MapRows(a, fn, rows, env).Diverges?
    ensures m.MapRows(b, fn, rows, env) == m.MapRows(a, fn, rows, env)
    decreases b - a
  {
    hide Machine.MapRows;
    if a < b {
      MoreMap(m, a, fn, rows, env);
      RowsEnough(m, a + 1, b, fn, rows, env);
    }
  }

  // -------- OFFSET and INDIRECT --------

  // The cells of an area row by row: a value for a single cell, an array otherwise,
  // or the first failure.
  ghost predicate AreaMeans(m: Machine, sheet: string, row: int, column: int, height: nat, width: nat, r: Outcome<Value>)
    requires height >= 1 && width >= 1
  {
    if height * width > 100000 then r == Err("#VALUE!")
    else exists keys :: Covers(keys, sheet, row, column, height, width) && KeysMean(m, keys, height, width, r)
  }

  ghost predicate KeysMean(m: Machine, keys: seq<Cell>, height: nat, width: nat, r: Outcome<Value>) {
    || (r.Err? && CellsMean(m, keys, Err(r.code)))
    || exists vs :: CellsMean(m, keys, Ok(vs)) && r == Ok(if |vs| == 1 then vs[0] else Array(height, width, vs))
  }

  lemma AreaIs(m: Machine, sheet: string, rect: Rect, r: Outcome<Value>)
    requires rect.firstRow <= rect.lastRow && rect.firstColumn <= rect.lastColumn
    ensures r == m.ReadTarget(Ok((sheet, rect)))
       <==> AreaMeans(m, sheet, rect.firstRow, rect.firstColumn, rect.lastRow - rect.firstRow + 1, rect.lastColumn - rect.firstColumn + 1, r)
  {
    hide ReadCells;
    var height, width := rect.lastRow - rect.firstRow + 1, rect.lastColumn - rect.firstColumn + 1;
    if height * width <= 100000 {
      var keys := RectCells(sheet, rect);
      RectCovers(sheet, rect);
      forall c ensures CellsMean(m, keys, c) <==> c == ReadCells(m.cells, keys) { CellsMeanOne(m, keys, c); }
      NeverDiverges(m, keys);
      KeysAre(m, keys, height, width, r);
      forall other | Covers(other, sheet, rect.firstRow, rect.firstColumn, height, width) ensures other == keys {
        CoversOne(keys, other, sheet, rect.firstRow, rect.firstColumn, height, width);
      }
    }
  }

  lemma {:induction false} KeysAre(m: Machine, keys: seq<Cell>, height: nat, width: nat, r: Outcome<Value>)
    requires height >= 1 && width >= 1 && |keys| == height * width
    ensures KeysMean(m, keys, height, width, r)
       <==> r == match ReadCells(m.cells, keys)
                 case Ok(vs) => Ok(OneOrArray(height, width, vs))
                 case Err(code) => Err(code)
                 case Diverges => Diverges
  {
    hide ReadCells;
    forall c ensures CellsMean(m, keys, c) <==> c == ReadCells(m.cells, keys) { CellsMeanOne(m, keys, c); }
    NeverDiverges(m, keys);
    var read := ReadCells(m.cells, keys);
    if read.Ok? {
      assert |read.value| == |keys| by { CellsLength(m, keys, read.value); }
      OneByOne(height, width);
    }
  }

  lemma CellsLength(m: Machine, keys: seq<Cell>, vs: seq<Value>)
    requires CellsMean(m, keys, Ok(vs))
    ensures |vs| == |keys|
  {
  }

  function AmountOf(m: Machine, v: Value, otherwise: int): int {
    if v.Omitted? || m.ops.whole(v).None? then otherwise else m.ops.whole(v).value
  }

  // Down, right, and then height and width, which are one cell's unless given.
  ghost predicate Moves(m: Machine, vs: seq<Value>, sheet: string, row: int, column: int, r: Outcome<Value>) {
    if |vs| < 2 || |vs| > 4 then r == Err("#VALUE!")
    else
      var top, left := row + AmountOf(m, vs[0], 0), column + AmountOf(m, vs[1], 0);
      var height := if |vs| > 2 then AmountOf(m, vs[2], 1) else 1;
      var width := if |vs| > 3 then AmountOf(m, vs[3], 1) else 1;
      if top < 1 || left < 1 || height < 1 || width < 1 then r == Err("#REF!")
      else AreaMeans(m, sheet, top, left, height, width, r)
  }

  lemma MovesIs(m: Machine, vs: seq<Value>, sheet: string, row: int, column: int, r: Outcome<Value>)
    ensures r == m.ReadTarget(m.Target("OFFSET", vs, sheet, row, column)) <==> Moves(m, vs, sheet, row, column, r)
  {
    hide AreaMeans, ReadCells;
    var where := m.Target("OFFSET", vs, sheet, row, column);
    if where.Ok? {
      var rect := where.value.1;
      AreaIs(m, sheet, rect, r);
    }
  }

  // OFFSET at run time: the reference is not evaluated, the numbers are, and the
  // area they lead to is read.
  lemma OffsetMeans(m: Machine, args: seq<Node>, sheet: string, row: int, column: int, env: Env, r: Outcome<Value>)
    requires args != []
    ensures Means(m, Dynamic("OFFSET", args, sheet, row, column), env, r)
       <==> || (r.Err? && FirstError(m, Wholes, args[1..], env, r.code))
            || exists vs :: AllMean(m, Wholes, args[1..], env, vs) && Moves(m, vs, sheet, row, column, r)
  {
    hide Machine.EvalList, AllMean, FirstError, Machine.Target, Machine.ReadTarget, Moves;
    var f := Reading(m, "OFFSET", sheet, row, column);
    forall vs ensures (r == f(vs) <==> Moves(m, vs, sheet, row, column, r)) && !f(vs).Diverges? {
      MovesIs(m, vs, sheet, row, column, r);
      TargetEnds(m, "OFFSET", vs, sheet, row, column);
    }
    ListThen(m, Dynamic("OFFSET", args, sheet, row, column), Wholes, args[1..], env, f, r);
  }

  function Reading(m: Machine, kind: string, sheet: string, row: int, column: int): seq<Value> -> Outcome<Value> {
    vs => m.ReadTarget(m.Target(kind, vs, sheet, row, column))
  }

  lemma TargetEnds(m: Machine, kind: string, vs: seq<Value>, sheet: string, row: int, column: int)
    ensures !m.ReadTarget(m.Target(kind, vs, sheet, row, column)).Diverges?
  {
    hide ReadCells;
    var where := m.Target(kind, vs, sheet, row, column);
    if where.Ok? { NeverDiverges(m, RectCells(where.value.0, where.value.1)); }
  }

  ghost predicate Points(m: Machine, v: Value, sheet: string, r: Outcome<Value>) {
    match m.ops.place(v, sheet)
    case None => r == Err("#REF!")
    case Some((where, rect)) =>
      if rect.lastRow < rect.firstRow || rect.lastColumn < rect.firstColumn then r == Err("#REF!")
      else AreaMeans(m, where, rect.firstRow, rect.firstColumn, rect.lastRow - rect.firstRow + 1, rect.lastColumn - rect.firstColumn + 1, r)
  }

  lemma PointsIs(m: Machine, vs: seq<Value>, sheet: string, row: int, column: int, r: Outcome<Value>)
    requires |vs| == 1
    ensures r == m.ReadTarget(m.Target("INDIRECT", vs, sheet, row, column)) <==> Points(m, vs[0], sheet, r)
  {
    hide AreaMeans, ReadCells;
    var named := m.ops.place(vs[0], sheet);
    if named.Some? && Grammar.Proper(named.value.1) { AreaIs(m, named.value.0, named.value.1, r); }
  }

  // INDIRECT at run time reads the area its text names.
  lemma IndirectMeans(m: Machine, args: seq<Node>, sheet: string, row: int, column: int, env: Env, r: Outcome<Value>)
    requires args != []
    ensures Means(m, Dynamic("INDIRECT", args, sheet, row, column), env, r)
       <==> (r.Err? && Means(m, args[0], env, r)) || exists v :: Means(m, args[0], env, Ok(v)) && Points(m, v, sheet, r)
  {
    hide Machine.EvalList, Machine.Target, Machine.ReadTarget, Points, Means;
    var f := Reading(m, "INDIRECT", sheet, row, column);
    forall vs ensures (|vs| == 1 ==> (r == f(vs) <==> Points(m, vs[0], sheet, r))) && !f(vs).Diverges? {
      if |vs| == 1 { PointsIs(m, vs, sheet, row, column, r); }
      TargetEnds(m, "INDIRECT", vs, sheet, row, column);
    }
    ListThen(m, Dynamic("INDIRECT", args, sheet, row, column), Stopping, args[..1], env, f, r);
    OneArgument(m, args, env);
    assert forall v: Value :: [v][0] == v;
  }

  lemma OneArgument(m: Machine, args: seq<Node>, env: Env)
    requires args != []
    ensures forall code :: FirstError(m, Stopping, args[..1], env, code) <==> Means(m, args[0], env, Err(code))
    ensures forall vs :: AllMean(m, Stopping, args[..1], env, vs) <==> |vs| == 1 && Means(m, args[0], env, Ok(vs[0]))
    ensures forall v :: AllMean(m, Stopping, args[..1], env, [v]) <==> Means(m, args[0], env, Ok(v))
  {
    hide Means;
    forall code ensures FirstError(m, Stopping, args[..1], env, code) <==> Means(m, args[0], env, Err(code)) {
      assert OkBefore(m, Stopping, args[..1], env, 0);
      assert ItemMeans(m, Stopping, args[..1][0], env, Err(code)) <==> Means(m, args[0], env, Err(code));
    }
  }
}
