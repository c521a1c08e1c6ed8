/**
  What a formula tree means, with the values LET and LAMBDA bind passed down as
  an environment that nobody ever changes.

  An environment gives each binding frame the values it holds; a frame nobody
  has bound holds none.  Names are looked up in the environment of the moment,
  so a LAMBDA that outlives the LET around it sees that LET's frame empty, as
  the program does.

  `fuel` bounds the nesting of evaluations, because a LAMBDA applied to itself
  need not stop.  Running out is the outcome Diverges; `FuelIsEnough` shows the
  bound changes no other outcome.
*/
module Evaluator {
  import opened CellAddress
  import opened FormulaSyntax
  import Grammar

  const MAX_ARRAY := 100000

  datatype Outcome<+T> = Ok(value: T) | Err(code: string) | Diverges

  type Env = map<nat, seq<Value>>

  type Sheet = map<Cell, Value>

  type Answer = r: Outcome<Value> | !r.Diverges? witness Err("")

  // Everything that works on finished values: operators, the library of
  // ordinary functions and the conversions.  The results below hold for any.
  datatype Ops = Ops(
    unary: (string, Value) -> Answer,
    binary: (string, Value, Value) -> Answer,
    strict: (string, seq<Value>) -> Answer,
    tolerant: string -> bool,
    truthy: Value -> bool,
    scalar: Value -> Answer,
    shape: Value -> Option<(nat, nat, seq<Value>)>,
    looksLikeError: Value -> bool,
    whole: Value -> Option<int>,                          // a number cut off to a whole one
    place: (Value, string) -> Option<(string, Rect)>)     // the area a text names, seen from a sheet

  function Frame(env: Env, f: nat): seq<Value> { if f in env then env[f] else [] }

  function ReadCell(cells: Sheet, c: Cell): Value { if c in cells then cells[c] else Blank }

  // A range as an ordinary argument: the first failing cell is the outcome.
  function ReadCells(cells: Sheet, keys: seq<Cell>): Outcome<seq<Value>> {
    if keys == [] then Ok([])
    else
      var v := ReadCell(cells, keys[0]);
      if v.Failure? then Err(v.code)
      else match ReadCells(cells, keys[1..])
           case Ok(vs) => Ok([v] + vs)
           case Err(code) => Err(code)
           case Diverges => Diverges
  }

  // A range read cell by cell, failures kept in place.
  function Raw(cells: Sheet, keys: seq<Cell>): seq<Value> {
    seq(|keys|, i requires 0 <= i < |keys| => ReadCell(cells, keys[i]))
  }

  function OneOrArray(rows: nat, columns: nat, items: seq<Value>): Value {
    if rows == 1 && columns == 1 && |items| == 1 then items[0] else Array(rows, columns, items)
  }

  function Pad(args: seq<Value>, arity: nat): seq<Value>
    requires |args| <= arity
  {
    args + seq(arity - |args|, _ => Omitted)
  }

  // How a list of arguments is evaluated: failures stop it, are kept as values,
  // or each item must also be a single value.
  datatype Mode = Stopping | Tolerating | Scalars | Wholes

  // OFFSET reads its numbers and not its reference, INDIRECT its text.
  function Asked(kind: string, args: seq<Node>): seq<Node> {
    if args == [] then [] else if kind == "INDIRECT" then args[..1] else args[1..]
  }

  function AskingMode(kind: string): Mode { if kind == "INDIRECT" then Stopping else Wholes }

  function Span(first: int, last: int): nat { if last < first then 0 else last - first + 1 }

  datatype Machine = Machine(cells: Sheet, ops: Ops) {

    function Eval(fuel: nat, n: Node, env: Env): Outcome<Value>
      decreases fuel, 0
    {
      if fuel == 0 then Diverges
      else
        match n
        case Literal(v) => Ok(v)
        case ErrorLiteral(code) => Err(code)
        case Reference(c) => FromCell(ReadCell(cells, c))
        case Range(rows, columns, keys) => EvalRange(rows, columns, keys)
        case Unary(op, operand) =>
          (match Eval(fuel - 1, operand, env)
           case Ok(v) => ops.unary(op, v)
           case other => other)
        case Binary(op, left, right) =>
          (match EvalList(fuel - 1, Stopping, [left, right], env)
           case Ok(vs) => ops.binary(op, vs[0], vs[1])
           case Err(code) => Err(code)
           case Diverges => Diverges)
        case Call(name, args) => EvalCall(fuel - 1, name, args, env)
        case Let(f, values, body) => EvalLet(fuel - 1, f, values, body, env[f := []])
        case Lambda(f, arity, body) => Ok(Closure(f, arity, body))
        case Apply(target, args) =>
          (match Eval(fuel - 1, target, env)
           case Ok(fn) =>
             if !fn.Closure? then Err("#VALUE!")
             else (match EvalList(fuel - 1, Stopping, args, env)
                   case Ok(vs) => Invoke(fuel - 1, fn, vs, env)
                   case Err(code) => Err(code)
                   case Diverges => Diverges)
           case other => other)
        case Bound(f, index) => if index < |Frame(env, f)| then Ok(Frame(env, f)[index]) else Err("#VALUE!")
        case ArrayLit(rows, columns, items) =>
          (match EvalList(fuel - 1, Scalars, items, env)
           case Ok(vs) => Ok(Array(rows, columns, vs))
           case Err(code) => Err(code)
           case Diverges => Diverges)
        case Dynamic(kind, args, sheet, row, column) =>
          (match EvalList(fuel - 1, AskingMode(kind), Asked(kind, args), env)
           case Ok(vs) => ReadTarget(Target(kind, vs, sheet, row, column))
           case Err(code) => Err(code)
           case Diverges => Diverges)
    }

    // OFFSET and INDIRECT on finished arguments: the sheet and area they point
    // at.  The parser never builds an OFFSET with another number of arguments.
    function Target(kind: string, vs: seq<Value>, sheet: string, row: int, column: int): Outcome<(string, Rect)> {
      if kind == "INDIRECT" then
        var named: Option<(string, Rect)> := if vs == [] then None else ops.place(vs[0], sheet);
        match named
        case Some((where, rect)) => if Grammar.Proper(rect) then Ok((where, rect)) else Err("#REF!")
        case None => Err("#REF!")
      else if |vs| < 2 || |vs| > 4 then Err("#VALUE!")
      else
        match Grammar.OffsetRect(Grammar.Place(sheet, row, column, 1, 1), Offsets(vs))
        case Some(rect) => Ok((sheet, rect))
        case None => Err("#REF!")
    }

    function Offsets(vs: seq<Value>): (r: seq<Grammar.Offset>)
      ensures |r| == |vs|
    {
      seq(|vs|, i requires 0 <= i < |vs| =>
        if ops.whole(vs[i]).None? || vs[i].Omitted? then Grammar.Skipped else Grammar.Given(ops.whole(vs[i]).value))
    }

    function FromCell(v: Value): Outcome<Value> { if v.Failure? then Err(v.code) else Ok(v) }

    function EvalRange(rows: nat, columns: nat, keys: seq<Cell>): Outcome<Value> {
      if rows * columns > MAX_ARRAY then Err("#VALUE!")
      else match ReadCells(cells, keys)
           case Ok(vs) => Ok(Array(rows, columns, vs))
           case Err(code) => Err(code)
           case Diverges => Diverges
    }

    function ReadTarget(where: Outcome<(string, Rect)>): Outcome<Value> {
      match where
      case Err(code) => Err(code)
      case Diverges => Diverges
      case Ok((sheet, rect)) =>
        if Grammar.CellCount(rect) > MAX_ARRAY then Err("#VALUE!")
        else
          match ReadCells(cells, RectCells(sheet, rect))
          case Ok(vs) => Ok(OneOrArray(Span(rect.firstRow, rect.lastRow), Span(rect.firstColumn, rect.lastColumn), vs))
          case Err(code) => Err(code)
          case Diverges => Diverges
    }

    // One item of an argument list.
    function EvalItem(fuel: nat, mode: Mode, n: Node, env: Env): Outcome<Value>
      decreases fuel, 1
    {
      if mode.Tolerating? && n.Range? then
        if n.rows * n.columns > MAX_ARRAY then Ok(Failure("#VALUE!")) else Ok(Array(n.rows, n.columns, Raw(cells, n.cells)))
      else
        match Eval(fuel, n, env)
        case Ok(v) =>
          if mode.Scalars? then ops.scalar(v)
          else if mode.Wholes? && !v.Omitted? && ops.whole(v).None? then Err("#VALUE!")
          else Ok(v)
        case Err(code) => if mode.Tolerating? then Ok(Failure(code)) else Err(code)
        case Diverges => Diverges
    }

    function EvalList(fuel: nat, mode: Mode, nodes: seq<Node>, env: Env): (r: Outcome<seq<Value>>)
      ensures r.Ok? ==> |r.value| == |nodes|
      decreases fuel, 2 + |nodes|
    {
      if nodes == [] then Ok([])
      else
        match EvalItem(fuel, mode, nodes[0], env)
        case Ok(v) =>
          (match EvalList(fuel, mode, nodes[1..], env)
           case Ok(vs) => Ok([v] + vs)
           case other => other)
        case Err(code) => Err(code)
        case Diverges => Diverges
    }

    // LET: frame f already holds the values so far.
    function EvalLet(fuel: nat, f: nat, values: seq<Node>, body: Node, env: Env): Outcome<Value>
      decreases fuel, 1 + |values|
    {
      if values == [] then Eval(fuel, body, env)
      else
        match Eval(fuel, values[0], env)
        case Ok(v) => EvalLet(fuel, f, values[1..], body, env[f := Frame(env, f) + [v]])
        case other => other
    }

    // Calling a function value: a LAMBDA binds its frame and evaluates its body,
    // a bare function name calls that function on the values.
    function Invoke(fuel: nat, fn: Value, args: seq<Value>, env: Env): Outcome<Value>
      decreases fuel, 1
    {
      match fn
      case Closure(f, arity, body) =>
        if |args| > arity then Err("#VALUE!") else Eval(fuel, body, env[f := Pad(args, arity)])
      case Function(name) => Eval(fuel, Call(name, seq(|args|, i requires 0 <= i < |args| => Literal(args[i]))), env)
      case _ => Err("#VALUE!")
    }

    function EvalCall(fuel: nat, name: string, args: seq<Node>, env: Env): Outcome<Value>
      decreases fuel, 3 + |args|
    {
      if name == "IF" then
        if |args| < 2 || |args| > 3 then Err("#VALUE!")
        else
          match Eval(fuel, args[0], env)
          case Ok(v) =>
            if ops.truthy(v) then Eval(fuel, args[1], env)
            else if |args| == 3 then Eval(fuel, args[2], env)
            else Ok(Boolean(false))
          case other => other
      else if name == "IFERROR" then
        if |args| != 2 then Err("#VALUE!")
        else
          match Eval(fuel, args[0], env)
          case Err(_) => Eval(fuel, args[1], env)
          case other => other
      else if name == "ISERROR" then
        if |args| != 1 then Err("#VALUE!")
        else if args[0].Range? then
          Ok(Array(args[0].rows, args[0].columns, ErrorAnswers(Raw(cells, args[0].cells))))
        else
          match Eval(fuel, args[0], env)
          case Ok(v) => Ok(Boolean(ops.looksLikeError(v)))
          case Err(_) => Ok(Boolean(true))
          case Diverges => Diverges
      else if name == "MAP" || name == "REDUCE" then
        if |args| < 2 then Err("#VALUE!")
        else
          match EvalList(fuel, Stopping, args, env)
          case Ok(vs) => EvalHelper(fuel, name, vs, env)
          case Err(code) => Err(code)
          case Diverges => Diverges
      else
        match EvalList(fuel, if ops.tolerant(name) then Tolerating else Stopping, args, env)
        case Ok(vs) => ops.strict(name, vs)
        case Err(code) => Err(code)
        case Diverges => Diverges
    }

    function ErrorAnswers(vs: seq<Value>): seq<Value> {
      seq(|vs|, i requires 0 <= i < |vs| => Boolean(vs[i].Failure? || ops.looksLikeError(vs[i])))
    }

    // MAP and REDUCE over evaluated arguments; the function comes last.
    function EvalHelper(fuel: nat, name: string, vs: seq<Value>, env: Env): Outcome<Value>
      decreases fuel, 2
    {
      if vs == [] || !(vs[|vs| - 1].Closure? || vs[|vs| - 1].Function?) then Err("#VALUE!")
      else
        var fn := vs[|vs| - 1];
        if name == "MAP" then
          match Shapes(vs[..|vs| - 1])
          case None => Err("#VALUE!")
          case Some(arrays) =>
            if !SameShape(arrays) then Err("#VALUE!")
            else
              match MapRows(fuel, fn, Rows(arrays), env)
              case Ok(items) => Ok(OneOrArray(arrays[0].0, arrays[0].1, items))
              case Err(code) => Err(code)
              case Diverges => Diverges
        else if |vs| != 3 then Err("#VALUE!")
        else
          match ops.shape(vs[1])
          case None => Err("#VALUE!")
          case Some((_, _, items)) => Fold(fuel, fn, vs[0], items, env)
    }

    function Shapes(vs: seq<Value>): (r: Option<seq<(nat, nat, seq<Value>)>>)
      ensures r.Some? ==> |r.value| == |vs|
    {
      if vs == [] then Some([])
      else
        match (ops.shape(vs[0]), Shapes(vs[1..]))
        case (Some(a), Some(rest)) => Some([a] + rest)
        case _ => None
    }

    predicate SameShape(arrays: seq<(nat, nat, seq<Value>)>) {
      && arrays != []
      && forall i :: 0 <= i < |arrays| ==>
                       arrays[i].0 == arrays[0].0 && arrays[i].1 == arrays[0].1 && |arrays[i].2| == |arrays[0].2|
    }

    // The i-th items of all the arrays, for every i.
    function Rows(arrays: seq<(nat, nat, seq<Value>)>): seq<seq<Value>>
      requires SameShape(arrays)
    {
      seq(|arrays[0].2|, i requires 0 <= i < |arrays[0].2| =>
        seq(|arrays|, j requires 0 <= j < |arrays| => arrays[j].2[i]))
    }

    function MapRows(fuel: nat, fn: Value, rows: seq<seq<Value>>, env: Env): Outcome<seq<Value>>
      decreases fuel, 2, |rows|
    {
      if rows == [] then Ok([])
      else
        match Invoke(fuel, fn, rows[0], env)
        case Ok(v) =>
          (match MapRows(fuel, fn, rows[1..], env)
           case Ok(vs) => Ok([v] + vs)
           case other => other)
        case Err(code) => Err(code)
        case Diverges => Diverges
    }

    function Fold(fuel: nat, fn: Value, carried: Value, items: seq<Value>, env: Env): Outcome<Value>
      decreases fuel, 2, |items|
    {
      if items == [] then Ok(carried)
      else
        match Invoke(fuel, fn, [carried, items[0]], env)
        case Ok(v) => Fold(fuel, fn, v, items[1..], env)
        case other => other
    }
  }

  // -------- the fuel bound changes no outcome but Diverges --------

  lemma {:induction false} MoreEval(m: Machine, fuel: nat, n: Node, env: Env)
    requires !m.Eval(fuel, n, env).Diverges?
    ensures m.Eval(fuel + 1, n, env) == m.Eval(fuel, n, env)
    decreases fuel, 0
  {
    hide Machine.EvalList, Machine.EvalLet, Machine.EvalCall, Machine.Invoke, Machine.EvalItem, Machine.Target, Machine.ReadTarget,
      Machine.EvalRange, Asked, AskingMode;
    match n
    case Unary(_, operand) => MoreEval(m, fuel - 1, operand, env);
    case Binary(_, left, right) => MoreList(m, fuel - 1, Stopping, [left, right], env);
    case Call(name, args) => MoreCall(m, fuel - 1, name, args, env);
    case Let(f, values, body) => MoreLet(m, fuel - 1, f, values, body, env[f := []]);
    case Apply(target, args) => MoreApply(m, fuel - 1, target, args, env);
    case ArrayLit(_, _, items) => MoreList(m, fuel - 1, Scalars, items, env);
    case Dynamic(kind, args, _, _, _) => MoreList(m, fuel - 1, AskingMode(kind), Asked(kind, args), env);
    case _ =>
  }

  lemma {:induction false} MoreApply(m: Machine, fuel: nat, target: Node, args: seq<Node>, env: Env)
    requires !m.Eval(fuel + 1, Apply(target, args), env).Diverges?
    ensures m.Eval(fuel + 2, Apply(target, args), env) == m.Eval(fuel + 1, Apply(target, args), env)
    decreases fuel, 3 + |args|
  {
    hide Machine.EvalList, Machine.Invoke;
    MoreEval(m, fuel, target, env);
    var fn := m.Eval(fuel, target, env);
    if fn.Ok? && fn.value.Closure? {
      MoreList(m, fuel, Stopping, args, env);
      var vs := m.EvalList(fuel, Stopping, args, env);
      if vs.Ok? { MoreInvoke(m, fuel, fn.value, vs.value, env); }
    }
  }

  lemma {:induction false} MoreList(m: Machine, fuel: nat, mode: Mode, nodes: seq<Node>, env: Env)
    requires !m.EvalList(fuel, mode, nodes, env).Diverges?
    ensures m.EvalList(fuel + 1, mode, nodes, env) == m.EvalList(fuel, mode, nodes, env)
    decreases fuel, 2 + |nodes|
  {
    hide Machine.Eval;
    if nodes != [] {
      if !(mode.Tolerating? && nodes[0].Range?) { MoreEval(m, fuel, nodes[0], env); }
      if m.EvalItem(fuel, mode, nodes[0], env).Ok? { MoreList(m, fuel, mode, nodes[1..], env); }
    }
  }

  lemma {:induction false} MoreLet(m: Machine, fuel: nat, f: nat, values: seq<Node>, body: Node, env: Env)
    requires !m.EvalLet(fuel, f, values, body, env).Diverges?
    ensures m.EvalLet(fuel + 1, f, values, body, env) == m.EvalLet(fuel, f, values, body, env)
    decreases fuel, 1 + |values|
  {
    hide Machine.Eval;
    if values == [] {
      MoreEval(m, fuel, body, env);
    } else {
      MoreEval(m, fuel, values[0], env);
      var v := m.Eval(fuel, values[0], env);
      if v.Ok? { MoreLet(m, fuel, f, values[1..], body, env[f := Frame(env, f) + [v.value]]); }
    }
  }

  lemma {:induction false} MoreInvoke(m: Machine, fuel: nat, fn: Value, args: seq<Value>, env: Env)
    requires !m.Invoke(fuel, fn, args, env).Diverges?
    ensures m.Invoke(fuel + 1, fn, args, env) == m.Invoke(fuel, fn, args, env)
    decreases fuel, 1
  {
    hide Machine.Eval;
    match fn
    case Closure(f, arity, body) => if |args| <= arity { MoreEval(m, fuel, body, env[f := Pad(args, arity)]); }
    case Function(name) =>
      MoreEval(m, fuel, Call(name, seq(|args|, i requires 0 <= i < |args| => Literal(args[i]))), env);
    case _ =>
  }

  lemma {:induction false} MoreCall(m: Machine, fuel: nat, name: string, args: seq<Node>, env: Env)
    requires !m.EvalCall(fuel, name, args, env).Diverges?
    ensures m.EvalCall(fuel + 1, name, args, env) == m.EvalCall(fuel, name, args, env)
    decreases fuel, 3 + |args|
  {
    hide Machine.Eval, Machine.EvalList, Machine.EvalHelper;
    if name in {"IF", "IFERROR", "ISERROR"} {
      forall a | a in args && !m.Eval(fuel, a, env).Diverges? { MoreEval(m, fuel, a, env); }
    } else {
      var mode := if name != "MAP" && name != "REDUCE" && m.ops.tolerant(name) then Tolerating else Stopping;
      if !m.EvalList(fuel, mode, args, env).Diverges? { MoreList(m, fuel, mode, args, env); }
      if (name == "MAP" || name == "REDUCE") && |args| >= 2 && m.EvalList(fuel, mode, args, env).Ok? {
        MoreHelper(m, fuel, name, m.EvalList(fuel, mode, args, env).value, env);
      }
    }
  }

  lemma {:induction false} MoreHelper(m: Machine, fuel: nat, name: string, vs: seq<Value>, env: Env)
    requires !m.EvalHelper(fuel, name, vs, env).Diverges?
    ensures m.EvalHelper(fuel + 1, name, vs, env) == m.EvalHelper(fuel, name, vs, env)
    decreases fuel, 2
  {
    hide Machine.Invoke;
    if vs != [] && (vs[|vs| - 1].Closure? || vs[|vs| - 1].Function?) {
      var fn := vs[|vs| - 1];
      if name == "MAP" {
        var arrays := m.Shapes(vs[..|vs| - 1]);
        if arrays.Some? && m.SameShape(arrays.value) { MoreMap(m, fuel, fn, m.Rows(arrays.value), env); }
      } else if |vs| == 3 && m.ops.shape(vs[1]).Some? {
        MoreFold(m, fuel, fn, vs[0], m.ops.shape(vs[1]).value.2, env);
      }
    }
  }

  lemma {:induction false} MoreMap(m: Machine, fuel: nat, fn: Value, rows: seq<seq<Value>>, env: Env)
    requires !m.MapRows(fuel, fn, rows, env).Diverges?
    ensures m.MapRows(fuel + 1, fn, rows, env) == m.MapRows(fuel, fn, rows, env)
    decreases fuel, 2, |rows|
  {
    hide Machine.Invoke;
    if rows != [] {
      MoreInvoke(m, fuel, fn, rows[0], env);
      if m.Invoke(fuel, fn, rows[0], env).Ok? { MoreMap(m, fuel, fn, rows[1..], env); }
    }
  }

  lemma {:induction false} MoreFold(m: Machine, fuel: nat, fn: Value, carried: Value, items: seq<Value>, env: Env)
    requires !m.Fold(fuel, fn, carried, items, env).Diverges?
    ensures m.Fold(fuel + 1, fn, carried, items, env) == m.Fold(fuel, fn, carried, items, env)
    decreases fuel, 2, |items|
  {
    hide Machine.Invoke;
    if items != [] {
      MoreInvoke(m, fuel, fn, [carried, items[0]], env);
      var v := m.Invoke(fuel, fn, [carried, items[0]], env);
      if v.Ok? { MoreFold(m, fuel, fn, v.value, items[1..], env); }
    }
  }

  // Any two bounds under which a formula finishes give it the same outcome.
  lemma {:induction false} FuelIsEnough(m: Machine, fuel: nat, more: nat, n: Node, env: Env)
    requires fuel <= more && !m.Eval(fuel, n, env).Diverges?
    ensures m.Eval(more, n, env) == m.Eval(fuel, n, env)
    decreases more - fuel
  {
    hide Machine.Eval;
    if fuel < more {
      MoreEval(m, fuel, n, env);
      FuelIsEnough(m, fuel + 1, more, n, env);
    }
  }

  // LET(f, LAMBDA(g, g(g)), f(f)) never finishes, whatever the bound.
  const SelfApplication: Node :=
    Let(0, [Lambda(1, 1, Apply(Bound(1, 0), [Bound(1, 0)]))], Apply(Bound(0, 0), [Bound(0, 0)]))

  lemma SelfApplicationDiverges(m: Machine, fuel: nat, env: Env)
    ensures m.Eval(fuel, SelfApplication, env) == Diverges
  {
    if fuel > 1 {
      var fn := Closure(1, 1, SelfApplication.values[0].body);
      var env1 := env[0 := []];
      var env2 := env1[0 := [fn]];
      assert m.Eval(fuel - 1, SelfApplication.values[0], env1) == Ok(fn);
      assert Frame(env1, 0) + [fn] == [fn];
      assert m.EvalLet(fuel - 1, 0, SelfApplication.values, SelfApplication.body, env1)
          == m.EvalLet(fuel - 1, 0, [], SelfApplication.body, env2);
      ApplyLoops(m, fuel - 1, Bound(0, 0), fn, env2);
    }
  }

  // Applying x to itself where x is bound to \g. g(g) comes back to itself one
  // level down.
  lemma {:induction false} ApplyLoops(m: Machine, fuel: nat, x: Node, fn: Value, env: Env)
    requires fn == Closure(1, 1, Apply(Bound(1, 0), [Bound(1, 0)]))
    requires x.Bound? && x.index < |Frame(env, x.frame)| && Frame(env, x.frame)[x.index] == fn
    ensures m.Eval(fuel, Apply(x, [x]), env) == Diverges
    decreases fuel
  {
    if fuel > 1 {
      assert m.Eval(fuel - 1, x, env) == Ok(fn);
      ListOfOne(m, fuel - 1, x, env);
      assert Pad([fn], 1) == [fn];
      ApplyLoops(m, fuel - 1, Bound(1, 0), fn, env[1 := [fn]]);
    }
  }

  lemma ListOfOne(m: Machine, fuel: nat, x: Node, env: Env)
    requires m.Eval(fuel, x, env).Ok?
    ensures m.EvalList(fuel, Stopping, [x], env) == Ok([m.Eval(fuel, x, env).value])
  {
    hide Machine.Eval;
    assert [x][1..] == [] && forall v: Value :: [v] + [] == [v];
    assert m.EvalList(fuel, Stopping, [], env) == Ok([]);
  }
}
