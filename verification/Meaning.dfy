/**
  What formulas mean, without the fuel: a formula means an outcome when some
  bound lets evaluation reach it.  Each construct is given its rule in both
  directions, so the evaluator is pinned down by what its parts mean.
*/
module Meaning {
  import opened FormulaSyntax
  import opened Evaluator

  ghost predicate Means(m: Machine, n: Node, env: Env, r: Outcome<Value>) {
    !r.Diverges? && exists fuel: nat :: m.Eval(fuel, n, env) == r
  }

  // A formula means at most one thing.
  lemma MeansOne(m: Machine, n: Node, env: Env, r: Outcome<Value>, r': Outcome<Value>)
    requires Means(m, n, env, r) && Means(m, n, env, r')
    ensures r == r'
  {
    hide Machine.Eval;
    var a: nat :| m.Eval(a, n, env) == r;
    var b: nat :| m.Eval(b, n, env) == r';
    if a <= b { FuelIsEnough(m, a, b, n, env); } else { FuelIsEnough(m, b, a, n, env); }
  }

  // One bound that is enough for two evaluations.
  lemma Together(m: Machine, n: Node, env: Env, r: Outcome<Value>, n': Node, env': Env, r': Outcome<Value>) returns (fuel: nat)
    requires Means(m, n, env, r) && Means(m, n', env', r')
    ensures m.Eval(fuel, n, env) == r && m.Eval(fuel, n', env') == r'
  {
    hide Machine.Eval;
    var a: nat :| m.Eval(a, n, env) == r;
    var b: nat :| m.Eval(b, n', env') == r';
    fuel := if a <= b then b else a;
    FuelIsEnough(m, a, fuel, n, env);
    FuelIsEnough(m, b, fuel, n', env');
  }

  // IF means what the branch the condition chooses means, or FALSE where that
  // branch is not written; the other branch need not mean anything.
  lemma IfMeans(m: Machine, args: seq<Node>, env: Env, r: Outcome<Value>)
    ensures Means(m, Call("IF", args), env, r)
       <==> if |args| < 2 || |args| > 3 then r == Err("#VALUE!")
            else || (r.Err? && Means(m, args[0], env, r))
                 || exists v :: Means(m, args[0], env, Ok(v)) && ChosenMeans(m, args, m.ops.truthy(v), env, r)
  {
    hide Machine.Eval;
    if |args| < 2 || |args| > 3 {
      IfRefused(m, args, env);
      if Means(m, Call("IF", args), env, r) { MeansOne(m, Call("IF", args), env, r, Err("#VALUE!")); }
    } else {
      if Means(m, Call("IF", args), env, r) { IfGives(m, args, env, r); }
      if (r.Err? && Means(m, args[0], env, r)) || (exists v :: Means(m, args[0], env, Ok(v)) && ChosenMeans(m, args, m.ops.truthy(v), env, r)) {
        IfFrom(m, args, env, r);
      }
    }
  }

  ghost predicate ChosenMeans(m: Machine, args: seq<Node>, yes: bool, env: Env, r: Outcome<Value>)
    requires 2 <= |args| <= 3
  {
    if yes then Means(m, args[1], env, r)
    else if |args| == 3 then Means(m, args[2], env, r)
    else r == Ok(Boolean(false))
  }

  function Chosen(m: Machine, fuel: nat, args: seq<Node>, yes: bool, env: Env): Outcome<Value>
    requires 2 <= |args| <= 3
  {
    if yes then m.Eval(fuel, args[1], env) else if |args| == 3 then m.Eval(fuel, args[2], env) else Ok(Boolean(false))
  }

  lemma IfRefused(m: Machine, args: seq<Node>, env: Env)
    requires |args| < 2 || |args| > 3
    ensures Means(m, Call("IF", args), env, Err("#VALUE!"))
  {
    assert m.Eval(1, Call("IF", args), env) == m.EvalCall(0, "IF", args, env);
  }

  lemma IfGives(m: Machine, args: seq<Node>, env: Env, r: Outcome<Value>)
    requires 2 <= |args| <= 3 && Means(m, Call("IF", args), env, r)
    ensures || (r.Err? && Means(m, args[0], env, r))
            || exists v :: Means(m, args[0], env, Ok(v)) && ChosenMeans(m, args, m.ops.truthy(v), env, r)
  {
    var fuel: nat :| m.Eval(fuel, Call("IF", args), env) == r;
    IfStep(m, fuel - 1, args, env);
    hide Machine.Eval;
    var first := m.Eval(fuel - 1, args[0], env);
    assert Means(m, args[0], env, first);
    if first.Ok? { assert ChosenMeans(m, args, m.ops.truthy(first.value), env, r); }
  }

  lemma IfFrom(m: Machine, args: seq<Node>, env: Env, r: Outcome<Value>)
    requires 2 <= |args| <= 3
    requires || (r.Err? && Means(m, args[0], env, r))
             || exists v :: Means(m, args[0], env, Ok(v)) && ChosenMeans(m, args, m.ops.truthy(v), env, r)
    ensures Means(m, Call("IF", args), env, r)
  {
    hide Machine.Eval;
    var n, fuel: nat := Call("IF", args), 0;
    if r.Err? && Means(m, args[0], env, r) {
      fuel :| m.Eval(fuel, args[0], env) == r;
    } else {
      var v :| Means(m, args[0], env, Ok(v)) && ChosenMeans(m, args, m.ops.truthy(v), env, r);
      var yes := m.ops.truthy(v);
      if yes || |args| == 3 {
        fuel := Together(m, args[0], env, Ok(v), if yes then args[1] else args[2], env, r);
      } else {
        fuel :| m.Eval(fuel, args[0], env) == Ok(v);
      }
    }
    IfStep(m, fuel, args, env);
    assert m.Eval(fuel + 1, n, env) == r;
  }

  lemma IfStep(m: Machine, fuel: nat, args: seq<Node>, env: Env)
    requires 2 <= |args| <= 3
    ensures var first := m.Eval(fuel, args[0], env);
            m.Eval(fuel + 1, Call("IF", args), env) == if first.Ok? then Chosen(m, fuel, args, m.ops.truthy(first.value), env) else first
  {
    assert m.Eval(fuel + 1, Call("IF", args), env) == m.EvalCall(fuel, "IF", args, env);
  }

  lemma IfErrorStep(m: Machine, fuel: nat, a: Node, b: Node, env: Env)
    ensures m.Eval(fuel + 1, Call("IFERROR", [a, b]), env)
         == match m.Eval(fuel, a, env)
            case Err(_) => m.Eval(fuel, b, env)
            case other => other
  {
    var args := [a, b];
    assert m.Eval(fuel + 1, Call("IFERROR", args), env) == m.EvalCall(fuel, "IFERROR", args, env);
    assert args[0] == a && args[1] == b;
  }

  // IFERROR means its first argument unless that is an error, and then the second.
  lemma IfErrorMeans(m: Machine, args: seq<Node>, env: Env, r: Outcome<Value>)
    ensures Means(m, Call("IFERROR", args), env, r)
       <==> if |args| != 2 then r == Err("#VALUE!")
            else (r.Ok? && Means(m, args[0], env, r)) || exists code :: Means(m, args[0], env, Err(code)) && Means(m, args[1], env, r)
  {
    hide Machine.Eval;
    if |args| == 2 {
      IfErrorOfTwo(m, args[0], args[1], env, r);
      assert args == [args[0], args[1]];
    } else {
      IfErrorRefused(m, args, env);
      if Means(m, Call("IFERROR", args), env, r) { MeansOne(m, Call("IFERROR", args), env, r, Err("#VALUE!")); }
    }
  }

  lemma IfErrorRefused(m: Machine, args: seq<Node>, env: Env)
    requires |args| != 2
    ensures Means(m, Call("IFERROR", args), env, Err("#VALUE!"))
  {
    assert m.Eval(1, Call("IFERROR", args), env) == m.EvalCall(0, "IFERROR", args, env);
  }

  lemma IfErrorOfTwo(m: Machine, a: Node, b: Node, env: Env, r: Outcome<Value>)
    ensures Means(m, Call("IFERROR", [a, b]), env, r)
       <==> (r.Ok? && Means(m, a, env, r)) || exists code :: Means(m, a, env, Err(code)) && Means(m, b, env, r)
  {
    var n := Call("IFERROR", [a, b]);
    if Means(m, n, env, r) {
      var fuel: nat :| m.Eval(fuel, n, env) == r;
      IfErrorStep(m, fuel - 1, a, b, env);
      var first := m.Eval(fuel - 1, a, env);
      assert Means(m, a, env, first);
      if first.Err? { assert m.Eval(fuel - 1, b, env) == r && Means(m, b, env, r); }
    }
    if r.Ok? && Means(m, a, env, r) {
      var fuel: nat :| m.Eval(fuel, a, env) == r;
      IfErrorStep(m, fuel, a, b, env);
      assert m.Eval(fuel + 1, n, env) == r;
    }
    if code :| Means(m, a, env, Err(code)) && Means(m, b, env, r) {
      var fuel := Together(m, a, env, Err(code), b, env, r);
      IfErrorStep(m, fuel, a, b, env);
      assert m.Eval(fuel + 1, n, env) == r;
    }
  }

  // An operator evaluates left before right, and the first error wins.
  lemma BinaryMeans(m: Machine, op: string, a: Node, b: Node, env: Env, r: Outcome<Value>)
    ensures Means(m, Binary(op, a, b), env, r)
       <==> || (r.Err? && Means(m, a, env, r))
            || (r.Err? && Means(m, b, env, r) && exists v :: Means(m, a, env, Ok(v)))
            || exists v, w :: Means(m, a, env, Ok(v)) && Means(m, b, env, Ok(w)) && r == m.ops.binary(op, v, w)
  {
    if Means(m, Binary(op, a, b), env, r) {
      BinaryGives(m, op, a, b, env, r);
    } else if || (r.Err? && Means(m, a, env, r))
              || (r.Err? && Means(m, b, env, r) && exists v :: Means(m, a, env, Ok(v)))
              || exists v, w :: Means(m, a, env, Ok(v)) && Means(m, b, env, Ok(w)) && r == m.ops.binary(op, v, w) {
      BinaryFrom(m, op, a, b, env, r);
    }
  }

  lemma BinaryGives(m: Machine, op: string, a: Node, b: Node, env: Env, r: Outcome<Value>)
    requires Means(m, Binary(op, a, b), env, r)
    ensures || (r.Err? && Means(m, a, env, r))
            || (r.Err? && Means(m, b, env, r) && exists v :: Means(m, a, env, Ok(v)))
            || exists v, w :: Means(m, a, env, Ok(v)) && Means(m, b, env, Ok(w)) && r == m.ops.binary(op, v, w)
  {
    var n := Binary(op, a, b);
    var fuel: nat :| m.Eval(fuel, n, env) == r;
    TwoItems(m, fuel - 1, a, b, env);
    var first, second := m.Eval(fuel - 1, a, env), m.Eval(fuel - 1, b, env);
    assert Means(m, a, env, first);
    if first.Ok? { assert Means(m, b, env, second); }
  }

  lemma BinaryFrom(m: Machine, op: string, a: Node, b: Node, env: Env, r: Outcome<Value>)
    requires || (r.Err? && Means(m, a, env, r))
             || (r.Err? && Means(m, b, env, r) && exists v :: Means(m, a, env, Ok(v)))
             || exists v, w :: Means(m, a, env, Ok(v)) && Means(m, b, env, Ok(w)) && r == m.ops.binary(op, v, w)
    ensures Means(m, Binary(op, a, b), env, r)
  {
    var n := Binary(op, a, b);
    if r.Err? && Means(m, a, env, r) {
      var fuel: nat :| m.Eval(fuel, a, env) == r;
      TwoItems(m, fuel, a, b, env);
      assert m.Eval(fuel + 1, n, env) == r;
    }
    if v :| r.Err? && Means(m, b, env, r) && Means(m, a, env, Ok(v)) {
      var fuel := Together(m, a, env, Ok(v), b, env, r);
      TwoItems(m, fuel, a, b, env);
      assert m.Eval(fuel + 1, n, env) == r;
    }
    if v, w :| Means(m, a, env, Ok(v)) && Means(m, b, env, Ok(w)) && r == m.ops.binary(op, v, w) {
      var fuel := Together(m, a, env, Ok(v), b, env, Ok(w));
      TwoItems(m, fuel, a, b, env);
      assert m.Eval(fuel + 1, n, env) == r;
    }
  }

  lemma TwoItems(m: Machine, fuel: nat, a: Node, b: Node, env: Env)
    ensures var first, second := m.Eval(fuel, a, env), m.Eval(fuel, b, env);
            m.EvalList(fuel, Stopping, [a, b], env)
            == match first
               case Ok(v) => (match second case Ok(w) => Ok([v, w]) case Err(code) => Err(code) case Diverges => Diverges)
               case Err(code) => Err(code)
               case Diverges => Diverges
  {
    var nodes := [a, b];
    assert nodes[0] == a && nodes[1..] == [b];
    OneItem(m, fuel, b, env);
    var item := m.EvalItem(fuel, Stopping, a, env);
    assert item == m.Eval(fuel, a, env);
    var rest := m.EvalList(fuel, Stopping, nodes[1..], env);
    if item.Ok? && rest.Ok? { assert [item.value] + rest.value == [item.value, rest.value[0]]; }
  }

  lemma OneItem(m: Machine, fuel: nat, x: Node, env: Env)
    ensures m.EvalList(fuel, Stopping, [x], env)
         == match m.Eval(fuel, x, env)
            case Ok(v) => Ok([v])
            case Err(code) => Err(code)
            case Diverges => Diverges
  {
    var nodes := [x];
    assert nodes[0] == x && nodes[1..] == [];
    var item := m.EvalItem(fuel, Stopping, x, env);
    assert item == m.Eval(fuel, x, env);
    assert m.EvalList(fuel, Stopping, nodes[1..], env) == Ok([]);
    if item.Ok? { assert [item.value] + [] == [item.value]; }
  }

  // -------- LET --------

  // The first |vs| values of a LET mean vs, each with the names before it bound.
  ghost predicate StepsMean(m: Machine, f: nat, values: seq<Node>, env: Env, vs: seq<Value>) {
    |vs| <= |values| && forall i :: 0 <= i < |vs| ==> Means(m, values[i], env[f := vs[..i]], Ok(vs[i]))
  }

  // After those, an error of the next value, or the calculation when there is none.
  ghost predicate RestMeans(m: Machine, f: nat, values: seq<Node>, body: Node, env: Env, vs: seq<Value>, r: Outcome<Value>)
    requires |vs| <= |values|
  {
    if |vs| == |values| then Means(m, body, env[f := vs], r) else r.Err? && Means(m, values[|vs|], env[f := vs], r)
  }

  // LET means its calculation with every name bound to what its value means in
  // turn, or the error of the first value that means one.
  lemma LetMeans(m: Machine, f: nat, values: seq<Node>, body: Node, env: Env, r: Outcome<Value>)
    ensures Means(m, Let(f, values, body), env, r)
       <==> exists vs :: StepsMean(m, f, values, env, vs) && RestMeans(m, f, values, body, env, vs, r)
  {
    hide Machine.EvalLet;
    var n := Let(f, values, body);
    assert values[0..] == values;
    if Means(m, n, env, r) {
      var fuel: nat :| m.Eval(fuel, n, env) == r;
      var vs := LetGives(m, f, values, body, env, [], fuel - 1, r);
    }
    if vs :| StepsMean(m, f, values, env, vs) && RestMeans(m, f, values, body, env, vs, r) {
      assert vs[..0] == [] && !r.Diverges?;
      var fuel := LetTakes(m, f, values, body, env, vs, 0, r);
      assert m.Eval(fuel + 1, n, env) == r;
    }
  }

  lemma LetStep(m: Machine, f: nat, values: seq<Node>, body: Node, env: Env, done: seq<Value>, fuel: nat)
    requires |done| <= |values|
    ensures m.EvalLet(fuel, f, values[|done|..], body, env[f := done])
         == if |done| == |values| then m.Eval(fuel, body, env[f := done])
            else match m.Eval(fuel, values[|done|], env[f := done])
                 case Ok(v) => m.EvalLet(fuel, f, values[|done| + 1..], body, env[f := done + [v]])
                 case other => other
  {
    hide Machine.Eval;
    var k, inner := |done|, env[f := done];
    if k < |values| {
      assert values[k..][0] == values[k] && values[k..][1..] == values[k + 1..];
      forall v: Value ensures inner[f := Frame(inner, f) + [v]] == env[f := done + [v]] { assert Frame(inner, f) == done; }
    }
  }

  lemma {:induction false} LetGives(m: Machine, f: nat, values: seq<Node>, body: Node, env: Env, done: seq<Value>, fuel: nat, r: Outcome<Value>)
    returns (vs: seq<Value>)
    requires StepsMean(m, f, values, env, done) && !r.Diverges?
    requires m.EvalLet(fuel, f, values[|done|..], body, env[f := done]) == r
    ensures StepsMean(m, f, values, env, vs) && RestMeans(m, f, values, body, env, vs, r)
    decreases |values| - |done|
  {
    hide Machine.Eval, Machine.EvalLet;
    LetStep(m, f, values, body, env, done, fuel);
    vs := done;
    if |done| < |values| {
      var v := m.Eval(fuel, values[|done|], env[f := done]);
      assert Means(m, values[|done|], env[f := done], v);
      if v.Ok? {
        StepsGrow(m, f, values, env, done, v.value);
        vs := LetGives(m, f, values, body, env, done + [v.value], fuel, r);
      }
    }
  }

  lemma StepsGrow(m: Machine, f: nat, values: seq<Node>, env: Env, done: seq<Value>, v: Value)
    requires StepsMean(m, f, values, env, done) && |done| < |values| && Means(m, values[|done|], env[f := done], Ok(v))
    ensures StepsMean(m, f, values, env, done + [v])
  {
    hide Means;
    var vs := done + [v];
    forall i | 0 <= i < |vs| ensures Means(m, values[i], env[f := vs[..i]], Ok(vs[i])) {
      assert vs[..i] == done[..i];
      if i == |done| { assert done[..i] == done; }
    }
  }

  lemma {:induction false} LetTakes(m: Machine, f: nat, values: seq<Node>, body: Node, env: Env, vs: seq<Value>, k: nat, r: Outcome<Value>)
    returns (fuel: nat)
    requires k <= |vs| && StepsMean(m, f, values, env, vs) && RestMeans(m, f, values, body, env, vs, r) && !r.Diverges?
    ensures m.EvalLet(fuel, f, values[k..], body, env[f := vs[..k]]) == r
    decreases |vs| - k
  {
    hide Machine.Eval, Machine.EvalLet;
    if k == |vs| {
      assert vs[..k] == vs;
      if k == |values| {
        fuel :| m.Eval(fuel, body, env[f := vs]) == r;
      } else {
        fuel :| m.Eval(fuel, values[k], env[f := vs]) == r;
      }
      LetStep(m, f, values, body, env, vs, fuel);
    } else {
      var a := LetTakes(m, f, values, body, env, vs, k + 1, r);
      var b: nat :| m.Eval(b, values[k], env[f := vs[..k]]) == Ok(vs[k]);
      fuel := if a <= b then b else a;
      assert vs[..k] + [vs[k]] == vs[..k + 1];
      LetEnough(m, a, fuel, f, values[k + 1..], body, env[f := vs[..k + 1]]);
      FuelIsEnough(m, b, fuel, values[k], env[f := vs[..k]]);
      LetStep(m, f, values, body, env, vs[..k], fuel);
    }
  }

  lemma {:induction false} LetEnough(m: Machine, a: nat, b: nat, f: nat, values: seq<Node>, body: Node, env: Env)
    requires a <= b && !m.EvalLet(a, f, values, body, env).Diverges?
    ensures m.EvalLet(b, f, values, body, env) == m.EvalLet(a, f, values, body, env)
    decreases b - a
  {
    hide Machine.EvalLet;
    if a < b {
      MoreLet(m, a, f, values, body, env);
      LetEnough(m, a + 1, b, f, values, body, env);
    }
  }

  // -------- lists of arguments --------

  // What a cell holds; an empty one is blank.
  ghost predicate Holds(m: Machine, keys: seq<Cell>, vs: seq<Value>) {
    |vs| == |keys| && forall i :: 0 <= i < |keys| ==> vs[i] == if keys[i] in m.cells then m.cells[keys[i]] else Blank
  }

  // A range whose failing cells stay in place.
  ghost predicate InPlace(m: Machine, rows: nat, columns: nat, keys: seq<Cell>, v: Value) {
    if rows * columns > 100000 then v == Failure("#VALUE!") else exists vs :: Holds(m, keys, vs) && v == Array(rows, columns, vs)
  }

  // What one argument means: as it stands, with its failure kept as a value, as a
  // single value, or as a whole number that may be left out.
  ghost predicate ItemMeans(m: Machine, mode: Mode, n: Node, env: Env, r: Outcome<Value>) {
    match mode
    case Stopping => Means(m, n, env, r)
    case Tolerating =>
      r.Ok? && if n.Range? then InPlace(m, n.rows, n.columns, n.cells, r.value)
               else Means(m, n, env, r) || exists code :: Means(m, n, env, Err(code)) && r.value == Failure(code)
    case Scalars => (r.Err? && Means(m, n, env, r)) || exists v :: Means(m, n, env, Ok(v)) && r == m.ops.scalar(v)
    case Wholes =>
      || (r.Err? && Means(m, n, env, r))
      || exists v :: Means(m, n, env, Ok(v)) && r == if v.Omitted? || m.ops.whole(v).Some? then Ok(v) else Err("#VALUE!")
  }

  ghost predicate AllMean(m: Machine, mode: Mode, nodes: seq<Node>, env: Env, vs: seq<Value>) {
    |vs| == |nodes| && forall i :: 0 <= i < |nodes| ==> ItemMeans(m, mode, nodes[i], env, Ok(vs[i]))
  }

  // Some item means the error, and all before it mean values.
  ghost predicate FirstError(m: Machine, mode: Mode, nodes: seq<Node>, env: Env, code: string) {
    exists k :: 0 <= k < |nodes| && ItemMeans(m, mode, nodes[k], env, Err(code)) && OkBefore(m, mode, nodes, env, k)
  }

  ghost predicate HasValue(m: Machine, mode: Mode, n: Node, env: Env) { exists v :: ItemMeans(m, mode, n, env, Ok(v)) }

  ghost predicate OkBefore(m: Machine, mode: Mode, nodes: seq<Node>, env: Env, k: nat)
    requires k <= |nodes|
  {
    forall i :: 0 <= i < k ==> HasValue(m, mode, nodes[i], env)
  }

  ghost predicate ListMeans(m: Machine, mode: Mode, nodes: seq<Node>, env: Env, r: Outcome<seq<Value>>) {
    match r
    case Ok(vs) => AllMean(m, mode, nodes, env, vs)
    case Err(code) => FirstError(m, mode, nodes, env, code)
    case Diverges => false
  }

  lemma RawHolds(m: Machine, keys: seq<Cell>, vs: seq<Value>)
    ensures Holds(m, keys, vs) <==> vs == Raw(m.cells, keys)
  {
  }

  lemma ItemGives(m: Machine, fuel: nat, mode: Mode, n: Node, env: Env)
    requires !m.EvalItem(fuel, mode, n, env).Diverges?
    ensures ItemMeans(m, mode, n, env, m.EvalItem(fuel, mode, n, env))
  {
    hide Machine.Eval;
    if mode.Tolerating? && n.Range? {
      RawHolds(m, n.cells, Raw(m.cells, n.cells));
    } else {
      assert Means(m, n, env, m.Eval(fuel, n, env));
    }
  }

  lemma ItemTakes(m: Machine, mode: Mode, n: Node, env: Env, r: Outcome<Value>) returns (fuel: nat)
    requires ItemMeans(m, mode, n, env, r) && !r.Diverges?
    ensures m.EvalItem(fuel, mode, n, env) == r
  {
    hide Machine.Eval;
    fuel := 0;
    if mode.Tolerating? && n.Range? {
      forall vs ensures Holds(m, n.cells, vs) <==> vs == Raw(m.cells, n.cells) { RawHolds(m, n.cells, vs); }
    } else {
      var v := Underlying(m, mode, n, env, r);
      fuel :| m.Eval(fuel, n, env) == v;
    }
  }

  // What the argument itself means.
  lemma Underlying(m: Machine, mode: Mode, n: Node, env: Env, r: Outcome<Value>) returns (v: Outcome<Value>)
    requires ItemMeans(m, mode, n, env, r) && !(mode.Tolerating? && n.Range?)
    ensures Means(m, n, env, v)
    ensures match mode
            case Stopping => r == v
            case Tolerating => r == if v.Ok? then v else Ok(Failure(v.code))
            case Scalars => r == if v.Ok? then m.ops.scalar(v.value) else v
            case Wholes => r == if v.Ok? && !v.value.Omitted? && m.ops.whole(v.value).None? then Err("#VALUE!") else v
  {
    hide Machine.Eval;
    if Means(m, n, env, r) && (r.Err? || mode.Stopping? || mode.Tolerating?) {
      v := r;
    } else if mode.Tolerating? {
      var code :| Means(m, n, env, Err(code)) && r.value == Failure(code);
      v := Err(code);
    } else {
      var x :| Means(m, n, env, Ok(x)) && r == if mode.Scalars? then m.ops.scalar(x) else if x.Omitted? || m.ops.whole(x).Some? then Ok(x) else Err("#VALUE!");
      v := Ok(x);
    }
  }

  lemma ItemEnough(m: Machine, a: nat, b: nat, mode: Mode, n: Node, env: Env)
    requires a <= b && !m.EvalItem(a, mode, n, env).Diverges?
    ensures m.EvalItem(b, mode, n, env) == m.EvalItem(a, mode, n, env)
  {
    hide Machine.Eval;
    if !(mode.Tolerating? && n.Range?) { FuelIsEnough(m, a, b, n, env); }
  }

  function Prepended(v: Value, rest: Outcome<seq<Value>>): Outcome<seq<Value>> {
    if rest.Ok? then Ok([v] + rest.value) else rest
  }

  lemma ListStep(m: Machine, fuel: nat, mode: Mode, nodes: seq<Node>, env: Env)
    requires nodes != []
    ensures m.EvalList(fuel, mode, nodes, env)
         == match m.EvalItem(fuel, mode, nodes[0], env)
            case Ok(v) => Prepended(v, m.EvalList(fuel, mode, nodes[1..], env))
            case Err(code) => Err(code)
            case Diverges => Diverges
  {
    hide Machine.EvalItem;
  }

  // A list of arguments gives what its items mean in turn, up to the first error.
  lemma {:induction false} ListGives(m: Machine, fuel: nat, mode: Mode, nodes: seq<Node>, env: Env)
    requires !m.EvalList(fuel, mode, nodes, env).Diverges?
    ensures ListMeans(m, mode, nodes, env, m.EvalList(fuel, mode, nodes, env))
    decreases |nodes|
  {
    hide Machine.EvalItem, Machine.EvalList, ItemMeans;
    if nodes == [] {
      EmptyList(m, fuel, mode, env);
    } else {
      ListStep(m, fuel, mode, nodes, env);
      var first := m.EvalItem(fuel, mode, nodes[0], env);
      ItemGives(m, fuel, mode, nodes[0], env);
      if first.Err? {
        assert OkBefore(m, mode, nodes, env, 0);
      } else {
        ListGives(m, fuel, mode, nodes[1..], env);
        FirstAndRest(m, mode, nodes, env, first.value, m.EvalList(fuel, mode, nodes[1..], env));
      }
    }
  }

  lemma EmptyList(m: Machine, fuel: nat, mode: Mode, env: Env)
    ensures m.EvalList(fuel, mode, [], env) == Ok([])
  {
  }

  lemma FirstAndRest(m: Machine, mode: Mode, nodes: seq<Node>, env: Env, v: Value, rest: Outcome<seq<Value>>)
    requires nodes != [] && ItemMeans(m, mode, nodes[0], env, Ok(v)) && ListMeans(m, mode, nodes[1..], env, rest)
    ensures ListMeans(m, mode, nodes, env, Prepended(v, rest))
  {
    hide ItemMeans;
    assert forall i :: 0 < i < |nodes| ==> nodes[i] == nodes[1..][i - 1];
    if rest.Err? {
      var k :| 0 <= k < |nodes| - 1 && ItemMeans(m, mode, nodes[1..][k], env, Err(rest.code)) && OkBefore(m, mode, nodes[1..], env, k);
      forall i | 0 <= i < k + 1 ensures HasValue(m, mode, nodes[i], env) {
        if i > 0 { assert HasValue(m, mode, nodes[1..][i - 1], env); }
      }
      assert OkBefore(m, mode, nodes, env, k + 1) && ItemMeans(m, mode, nodes[k + 1], env, Err(rest.code));
    }
  }

  lemma {:induction false} ListTakes(m: Machine, mode: Mode, nodes: seq<Node>, env: Env, r: Outcome<seq<Value>>) returns (fuel: nat)
    requires ListMeans(m, mode, nodes, env, r)
    ensures m.EvalList(fuel, mode, nodes, env) == r
    decreases |nodes|
  {
    hide Machine.EvalItem, Machine.EvalList, ItemMeans;
    if nodes == [] {
      fuel := 0;
      EmptyList(m, 0, mode, env);
    } else if r.Err? && ItemMeans(m, mode, nodes[0], env, Err(r.code)) {
      fuel := ItemTakes(m, mode, nodes[0], env, Err(r.code));
      ListStep(m, fuel, mode, nodes, env);
    } else {
      var v, rest := TakeApart(m, mode, nodes, env, r);
      var a := ListTakes(m, mode, nodes[1..], env, rest);
      var b := ItemTakes(m, mode, nodes[0], env, Ok(v));
      fuel := if a <= b then b else a;
      ListEnough(m, a, fuel, mode, nodes[1..], env);
      ItemEnough(m, b, fuel, mode, nodes[0], env);
      ListStep(m, fuel, mode, nodes, env);
    }
  }

  lemma TakeApart(m: Machine, mode: Mode, nodes: seq<Node>, env: Env, r: Outcome<seq<Value>>) returns (v: Value, rest: Outcome<seq<Value>>)
    requires nodes != [] && ListMeans(m, mode, nodes, env, r) && !(r.Err? && ItemMeans(m, mode, nodes[0], env, Err(r.code)))
    ensures ItemMeans(m, mode, nodes[0], env, Ok(v)) && ListMeans(m, mode, nodes[1..], env, rest)
    ensures r == Prepended(v, rest)
  {
    hide ItemMeans;
    assert forall i :: 0 < i < |nodes| ==> nodes[i] == nodes[1..][i - 1];
    match r
    case Ok(vs) =>
      v, rest := vs[0], Ok(vs[1..]);
      assert vs == [v] + vs[1..];
    case Err(code) =>
      var k :| 0 <= k < |nodes| && ItemMeans(m, mode, nodes[k], env, Err(code)) && OkBefore(m, mode, nodes, env, k);
      assert HasValue(m, mode, nodes[0], env);
      v :| ItemMeans(m, mode, nodes[0], env, Ok(v));
      rest := Err(code);
      forall i | 0 <= i < k - 1 ensures HasValue(m, mode, nodes[1..][i], env) {
        assert HasValue(m, mode, nodes[i + 1], env);
      }
      assert OkBefore(m, mode, nodes[1..], env, k - 1) && ItemMeans(m, mode, nodes[1..][k - 1], env, Err(code));
  }

  lemma {:induction false} ListEnough(m: Machine, a: nat, b: nat, mode: Mode, nodes: seq<Node>, env: Env)
    requires a <= b && !m.EvalList(a, mode, nodes, env).Diverges?
    ensures m.EvalList(b, mode, nodes, env) == m.EvalList(a, mode, nodes, env)
    decreases b - a
  {
    hide Machine.EvalList;
    if a < b {
      MoreList(m, a, mode, nodes, env);
      ListEnough(m, a + 1, b, mode, nodes, env);
    }
  }

  // -------- calls --------

  // What calling a function value on finished arguments means: a LAMBDA its body
  // with the parameters bound in order, wherever the call stands, those not given
  // being omitted; a bare name the call of that function; anything else an error.
  ghost predicate InvokeMeans(m: Machine, fn: Value, vs: seq<Value>, env: Env, r: Outcome<Value>) {
    match fn
    case Closure(f, arity, body) =>
      if |vs| > arity then r == Err("#VALUE!") else Means(m, body, env[f := vs + seq(arity - |vs|, _ => Omitted)], r)
    case Function(name) => Means(m, Call(name, seq(|vs|, i requires 0 <= i < |vs| => Literal(vs[i]))), env, r)
    case _ => r == Err("#VALUE!")
  }

  // A call means what its target's body means on what the arguments mean; the
  // target comes first, then the arguments in turn, and the first error wins.
  lemma CallMeans(m: Machine, target: Node, args: seq<Node>, env: Env, r: Outcome<Value>)
    ensures Means(m, Apply(target, args), env, r)
       <==> || (r.Err? && Means(m, target, env, r))
            || exists fn :: Means(m, target, env, Ok(fn)) && AppliedMeans(m, fn, args, env, r)
  {
    if Means(m, Apply(target, args), env, r) {
      var fuel: nat :| m.Eval(fuel, Apply(target, args), env) == r;
      ApplyGives(m, fuel - 1, target, args, env, r);
    }
    if r.Err? && Means(m, target, env, r) {
      var fuel: nat :| m.Eval(fuel, target, env) == r;
      assert m.Eval(fuel + 1, Apply(target, args), env) == r;
    }
    if fn :| Means(m, target, env, Ok(fn)) && AppliedMeans(m, fn, args, env, r) {
      ApplyTakes(m, target, fn, args, env, r);
    }
  }

  ghost predicate AppliedMeans(m: Machine, fn: Value, args: seq<Node>, env: Env, r: Outcome<Value>) {
    if !fn.Closure? then r == Err("#VALUE!")
    else || (r.Err? && FirstError(m, Stopping, args, env, r.code))
         || exists vs :: AllMean(m, Stopping, args, env, vs) && InvokeMeans(m, fn, vs, env, r)
  }

  lemma ApplyGives(m: Machine, fuel: nat, target: Node, args: seq<Node>, env: Env, r: Outcome<Value>)
    requires !r.Diverges? && m.Eval(fuel + 1, Apply(target, args), env) == r
    ensures || (r.Err? && Means(m, target, env, r))
            || exists fn :: Means(m, target, env, Ok(fn)) && AppliedMeans(m, fn, args, env, r)
  {
    hide Machine.EvalList;
    var first := m.Eval(fuel, target, env);
    assert Means(m, target, env, first);
    if first.Ok? {
      var fn := first.value;
      if fn.Closure? {
        ListGives(m, fuel, Stopping, args, env);
        var vs := m.EvalList(fuel, Stopping, args, env);
        if vs.Ok? {
          assert m.Eval(fuel + 1, Apply(target, args), env) == m.Invoke(fuel, fn, vs.value, env);
          InvokeGives(m, fuel, fn, vs.value, env, r);
        }
      }
      assert AppliedMeans(m, fn, args, env, r);
    }
  }

  lemma ApplyTakes(m: Machine, target: Node, fn: Value, args: seq<Node>, env: Env, r: Outcome<Value>)
    requires !r.Diverges? && Means(m, target, env, Ok(fn)) && AppliedMeans(m, fn, args, env, r)
    ensures Means(m, Apply(target, args), env, r)
  {
    hide Machine.EvalList;
    var a: nat :| m.Eval(a, target, env) == Ok(fn);
    var n, fuel := Apply(target, args), a;
    if fn.Closure? {
      if r.Err? && FirstError(m, Stopping, args, env, r.code) {
        var b := ListTakes(m, Stopping, args, env, Err(r.code));
        fuel := if a <= b then b else a;
        ListEnough(m, b, fuel, Stopping, args, env);
      } else {
        var vs :| AllMean(m, Stopping, args, env, vs) && InvokeMeans(m, fn, vs, env, r);
        var b := ListTakes(m, Stopping, args, env, Ok(vs));
        var c := InvokeTakes(m, fn, vs, env, r);
        fuel := Largest(a, b, c);
        ListEnough(m, b, fuel, Stopping, args, env);
        InvokeEnough(m, c, fuel, fn, vs, env);
      }
      FuelIsEnough(m, a, fuel, target, env);
    }
    assert m.Eval(fuel + 1, n, env) == r;
  }

  function Largest(a: nat, b: nat, c: nat): (r: nat)
    ensures a <= r && b <= r && c <= r
  {
    var ab := if a <= b then b else a;
    if ab <= c then c else ab
  }

  lemma InvokeGives(m: Machine, fuel: nat, fn: Value, vs: seq<Value>, env: Env, r: Outcome<Value>)
    requires !r.Diverges? && m.Invoke(fuel, fn, vs, env) == r
    ensures InvokeMeans(m, fn, vs, env, r)
  {
    hide Machine.Eval;
    if fn.Closure? && |vs| <= fn.arity { PadIs(vs, fn.arity); }
  }

  lemma PadIs(vs: seq<Value>, arity: nat)
    requires |vs| <= arity
    ensures Pad(vs, arity) == vs + seq(arity - |vs|, _ => Omitted)
  {
  }

  lemma InvokeTakes(m: Machine, fn: Value, vs: seq<Value>, env: Env, r: Outcome<Value>) returns (fuel: nat)
    requires InvokeMeans(m, fn, vs, env, r)
    ensures m.Invoke(fuel, fn, vs, env) == r
  {
    hide Machine.Eval;
    fuel := 0;
    match fn
    case Closure(f, arity, body) =>
      if |vs| <= arity {
        PadIs(vs, arity);
        fuel :| m.Eval(fuel, body, env[f := Pad(vs, arity)]) == r;
      }
    case Function(name) => fuel :| m.Eval(fuel, Call(name, seq(|vs|, i requires 0 <= i < |vs| => Literal(vs[i]))), env) == r;
    case _ =>
  }

  lemma {:induction false} InvokeEnough(m: Machine, a: nat, b: nat, fn: Value, vs: seq<Value>, env: Env)
    requires a <= b && !m.Invoke(a, fn, vs, env).Diverges?
    ensures m.Invoke(b, fn, vs, env) == m.Invoke(a, fn, vs, env)
    decreases b - a
  {
    hide Machine.Invoke;
    if a < b {
      MoreInvoke(m, a, fn, vs, env);
      InvokeEnough(m, a + 1, b, fn, vs, env);
    }
  }
}
