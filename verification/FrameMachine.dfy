/**
  The evaluator as the program runs it.  Binding frames are shared and
  overwritten: a LET or a LAMBDA call saves its frame, writes its own values
  over it, and puts the saved values back on every way out.

  Each method gives exactly the outcome of the environment-passing evaluator
  started from the frames it found, and leaves every frame as it found it,
  whether the evaluation succeeds, fails or runs out of fuel, and however often
  the same LET or LAMBDA is entered again inside itself.
*/
module FrameMachine {
  import opened CellAddress
  import opened FormulaSyntax
  import opened Evaluator

  class Interpreter {
    const m: Machine
    var frames: Env

    constructor (cells: Sheet, ops: Ops)
      ensures m == Machine(cells, ops) && frames == map[]
    {
      m := Machine(cells, ops);
      frames := map[];
    }

    // Puts one frame back as it was in `saved`.
    method Restore(f: nat, ghost saved: Env, had: bool, values: seq<Value>)
      requires had == (f in saved) && (had ==> values == saved[f])
      requires forall g :: g != f ==> (g in frames <==> g in saved) && (g in saved ==> frames[g] == saved[g])
      modifies this
      ensures frames == saved
    {
      if had {
        frames := frames[f := values];
      } else {
        frames := frames - {f};
      }
    }

    method Eval(fuel: nat, n: Node) returns (r: Outcome<Value>)
      modifies this
      ensures frames == old(frames)
      ensures r == m.Eval(fuel, n, old(frames))
      decreases fuel, 0
    {
      hide Machine.EvalList, Machine.EvalCall, Machine.EvalLet, Machine.Invoke, Machine.EvalRange, ReadCells;
      if fuel == 0 { return Diverges; }
      match n
      case Literal(v) => r := Ok(v);
      case ErrorLiteral(code) => r := Err(code);
      case Reference(c) => r := m.FromCell(ReadCell(m.cells, c));
      case Range(rows, columns, keys) => r := EvalRange(rows, columns, keys);
      case Unary(op, operand) =>
        r := Eval(fuel - 1, operand);
        if r.Ok? { r := m.ops.unary(op, r.value); }
      case Binary(op, left, right) =>
        var vs := EvalList(fuel - 1, Stopping, [left, right]);
        r := match vs case Ok(v) => m.ops.binary(op, v[0], v[1]) case Err(code) => Err(code) case Diverges => Diverges;
      case Call(name, args) => r := EvalCall(fuel - 1, name, args);
      case Let(f, values, body) => r := EvalLet(fuel - 1, f, values, body);
      case Lambda(f, arity, body) => r := Ok(Closure(f, arity, body));
      case Apply(target, args) =>
        r := Eval(fuel - 1, target);
        if r.Ok? {
          var fn := r.value;
          if !fn.Closure? { return Err("#VALUE!"); }
          var vs := EvalList(fuel - 1, Stopping, args);
          match vs
          case Ok(v) => r := Invoke(fuel - 1, fn, v);
          case Err(code) => r := Err(code);
          case Diverges => r := Diverges;
        }
      case Bound(f, index) =>
        r := if index < |Frame(frames, f)| then Ok(Frame(frames, f)[index]) else Err("#VALUE!");
      case ArrayLit(rows, columns, items) =>
        var vs := EvalList(fuel - 1, Scalars, items);
        r := match vs case Ok(v) => Ok(Array(rows, columns, v)) case Err(code) => Err(code) case Diverges => Diverges;
      case Dynamic(kind, args, sheet, row, column) =>
        var vs := EvalList(fuel - 1, AskingMode(kind), Asked(kind, args));
        r := match vs
          case Ok(v) => m.ReadTarget(m.Target(kind, v, sheet, row, column))
          case Err(code) => Err(code)
          case Diverges => Diverges;
    }

    method EvalRange(rows: nat, columns: nat, keys: seq<Cell>) returns (r: Outcome<Value>)
      ensures r == m.EvalRange(rows, columns, keys)
    {
      if rows * columns > MAX_ARRAY { return Err("#VALUE!"); }
      var values: seq<Value>, i := [], 0;
      assert keys[0..] == keys && forall vs: seq<Value> :: values + vs == vs;
      while i < |keys|
        invariant 0 <= i <= |keys|
        invariant ReadCells(m.cells, keys)
               == match ReadCells(m.cells, keys[i..])
                  case Ok(vs) => Ok(values + vs)
                  case other => other
      {
        var v := ReadCell(m.cells, keys[i]);
        assert keys[i..][1..] == keys[i + 1..];
        assert forall vs: seq<Value> :: values + ([v] + vs) == (values + [v]) + vs;
        if v.Failure? { return Err(v.code); }
        values := values + [v];
        i := i + 1;
      }
      assert keys[i..] == [] && values + [] == values;
      r := Ok(Array(rows, columns, values));
    }

    method EvalItem(fuel: nat, mode: Mode, n: Node) returns (r: Outcome<Value>)
      modifies this
      ensures frames == old(frames)
      ensures r == m.EvalItem(fuel, mode, n, old(frames))
      decreases fuel, 1
    {
      hide Machine.Eval;
      if mode.Tolerating? && n.Range? {
        if n.rows * n.columns > MAX_ARRAY { return Ok(Failure("#VALUE!")); }
        return Ok(Array(n.rows, n.columns, Raw(m.cells, n.cells)));
      }
      r := Eval(fuel, n);
      match r
      case Ok(v) =>
        if mode.Scalars? {
          r := m.ops.scalar(v);
        } else if mode.Wholes? && !v.Omitted? && m.ops.whole(v).None? {
          r := Err("#VALUE!");
        }
      case Err(code) => if mode.Tolerating? { r := Ok(Failure(code)); }
      case Diverges =>
    }

    method EvalList(fuel: nat, mode: Mode, nodes: seq<Node>) returns (r: Outcome<seq<Value>>)
      modifies this
      ensures frames == old(frames)
      ensures r == m.EvalList(fuel, mode, nodes, old(frames))
      decreases fuel, 2 + |nodes|
    {
      hide Machine.EvalItem;
      var values: seq<Value>, i := [], 0;
      assert nodes[0..] == nodes && forall vs: seq<Value> :: values + vs == vs;
      while i < |nodes|
        invariant 0 <= i <= |nodes| && frames == old(frames)
        invariant m.EvalList(fuel, mode, nodes, frames)
               == match m.EvalList(fuel, mode, nodes[i..], frames)
                  case Ok(vs) => Ok(values + vs)
                  case other => other
      {
        assert nodes[i..][1..] == nodes[i + 1..];
        var v := EvalItem(fuel, mode, nodes[i]);
        if v.Err? { return Err(v.code); }
        if v.Diverges? { return Diverges; }
        assert forall vs: seq<Value> :: values + ([v.value] + vs) == (values + [v.value]) + vs;
        values := values + [v.value];
        i := i + 1;
      }
      assert nodes[i..] == [] && values + [] == values;
      r := Ok(values);
    }

    method EvalLet(fuel: nat, f: nat, values: seq<Node>, body: Node) returns (r: Outcome<Value>)
      modifies this
      ensures frames == old(frames)
      ensures r == m.EvalLet(fuel, f, values, body, old(frames)[f := []])
      decreases fuel, 1 + |values|
    {
      var had := f in frames;
      var saved := Frame(frames, f);
      ghost var before := frames;
      frames := frames[f := []];
      r := LetSteps(fuel, f, values, body);
      Restore(f, before, had, saved);
    }

    // The values in turn, each appended to the frame, then the calculation.  The
    // frame itself is left for EvalLet to put back.
    method LetSteps(fuel: nat, f: nat, values: seq<Node>, body: Node) returns (r: Outcome<Value>)
      modifies this
      ensures forall g :: g != f ==> (g in frames <==> g in old(frames)) && (g in frames ==> frames[g] == old(frames)[g])
      ensures r == m.EvalLet(fuel, f, values, body, old(frames))
      decreases fuel, 1 + |values|, 0
    {
      hide Machine.Eval;
      var i := 0;
      while i < |values|
        invariant 0 <= i <= |values|
        invariant forall g :: g != f ==> (g in frames <==> g in old(frames)) && (g in frames ==> frames[g] == old(frames)[g])
        invariant m.EvalLet(fuel, f, values, body, old(frames)) == m.EvalLet(fuel, f, values[i..], body, frames)
      {
        assert values[i..][1..] == values[i + 1..];
        r := Eval(fuel, values[i]);
        if !r.Ok? { return; }
        frames := frames[f := Frame(frames, f) + [r.value]];
        i := i + 1;
      }
      assert values[i..] == [];
      r := Eval(fuel, body);
    }

    method Invoke(fuel: nat, fn: Value, args: seq<Value>) returns (r: Outcome<Value>)
      modifies this
      ensures frames == old(frames)
      ensures r == m.Invoke(fuel, fn, args, old(frames))
      decreases fuel, 1
    {
      hide Machine.Eval;
      match fn
      case Closure(f, arity, body) =>
        if |args| > arity { return Err("#VALUE!"); }
        var had := f in frames;
        var saved := Frame(frames, f);
        ghost var before := frames;
        frames := frames[f := Pad(args, arity)];
        r := Eval(fuel, body);
        Restore(f, before, had, saved);
      case Function(name) =>
        r := Eval(fuel, Call(name, seq(|args|, i requires 0 <= i < |args| => Literal(args[i]))));
      case _ => r := Err("#VALUE!");
    }

    method EvalCall(fuel: nat, name: string, args: seq<Node>) returns (r: Outcome<Value>)
      modifies this
      ensures frames == old(frames)
      ensures r == m.EvalCall(fuel, name, args, old(frames))
      decreases fuel, 3 + |args|
    {
      hide Machine.Eval, Machine.EvalList, Machine.EvalHelper;
      if name == "IF" {
        if |args| < 2 || |args| > 3 { return Err("#VALUE!"); }
        r := Eval(fuel, args[0]);
        if !r.Ok? { return; }
        if m.ops.truthy(r.value) {
          r := Eval(fuel, args[1]);
        } else if |args| == 3 {
          r := Eval(fuel, args[2]);
        } else {
          r := Ok(Boolean(false));
        }
      } else if name == "IFERROR" {
        if |args| != 2 { return Err("#VALUE!"); }
        r := Eval(fuel, args[0]);
        if r.Err? { r := Eval(fuel, args[1]); }
      } else if name == "ISERROR" {
        if |args| != 1 { return Err("#VALUE!"); }
        if args[0].Range? {
          return Ok(Array(args[0].rows, args[0].columns, m.ErrorAnswers(Raw(m.cells, args[0].cells))));
        }
        r := Eval(fuel, args[0]);
        match r
        case Ok(v) => r := Ok(Boolean(m.ops.looksLikeError(v)));
        case Err(_) => r := Ok(Boolean(true));
        case Diverges =>
      } else if name == "MAP" || name == "REDUCE" {
        if |args| < 2 { return Err("#VALUE!"); }
        var vs := EvalList(fuel, Stopping, args);
        match vs
        case Ok(v) => r := EvalHelper(fuel, name, v);
        case Err(code) => r := Err(code);
        case Diverges => r := Diverges;
      } else {
        var vs := EvalList(fuel, if m.ops.tolerant(name) then Tolerating else Stopping, args);
        r := match vs case Ok(v) => m.ops.strict(name, v) case Err(code) => Err(code) case Diverges => Diverges;
      }
    }

    method EvalHelper(fuel: nat, name: string, vs: seq<Value>) returns (r: Outcome<Value>)
      modifies this
      ensures frames == old(frames)
      ensures r == m.EvalHelper(fuel, name, vs, old(frames))
      decreases fuel, 2
    {
      hide Machine.MapRows, Machine.Fold;
      if vs == [] || !(vs[|vs| - 1].Closure? || vs[|vs| - 1].Function?) { return Err("#VALUE!"); }
      var fn := vs[|vs| - 1];
      if name == "MAP" {
        var arrays := m.Shapes(vs[..|vs| - 1]);
        if arrays.None? || !m.SameShape(arrays.value) { return Err("#VALUE!"); }
        var items := MapRows(fuel, fn, m.Rows(arrays.value));
        r := match items
          case Ok(v) => Ok(OneOrArray(arrays.value[0].0, arrays.value[0].1, v))
          case Err(code) => Err(code)
          case Diverges => Diverges;
      } else {
        if |vs| != 3 { return Err("#VALUE!"); }
        var table := m.ops.shape(vs[1]);
        if table.None? { return Err("#VALUE!"); }
        r := Fold(fuel, fn, vs[0], table.value.2);
      }
    }

    method MapRows(fuel: nat, fn: Value, rows: seq<seq<Value>>) returns (r: Outcome<seq<Value>>)
      modifies this
      ensures frames == old(frames)
      ensures r == m.MapRows(fuel, fn, rows, old(frames))
      decreases fuel, 2, |rows|
    {
      hide Machine.Invoke;
      var values: seq<Value>, i := [], 0;
      assert rows[0..] == rows && forall vs: seq<Value> :: values + vs == vs;
      while i < |rows|
        invariant 0 <= i <= |rows| && frames == old(frames)
        invariant m.MapRows(fuel, fn, rows, frames)
               == match m.MapRows(fuel, fn, rows[i..], frames)
                  case Ok(vs) => Ok(values + vs)
                  case other => other
      {
        assert rows[i..][1..] == rows[i + 1..];
        var v := Invoke(fuel, fn, rows[i]);
        if v.Err? { return Err(v.code); }
        if v.Diverges? { return Diverges; }
        assert forall vs: seq<Value> :: values + ([v.value] + vs) == (values + [v.value]) + vs;
        values := values + [v.value];
        i := i + 1;
      }
      assert rows[i..] == [] && values + [] == values;
      r := Ok(values);
    }

    method Fold(fuel: nat, fn: Value, first: Value, items: seq<Value>) returns (r: Outcome<Value>)
      modifies this
      ensures frames == old(frames)
      ensures r == m.Fold(fuel, fn, first, items, old(frames))
      decreases fuel, 2, |items|
    {
      hide Machine.Invoke;
      var carried, i := first, 0;
      while i < |items|
        invariant 0 <= i <= |items| && frames == old(frames)
        invariant m.Fold(fuel, fn, first, items, frames) == m.Fold(fuel, fn, carried, items[i..], frames)
      {
        assert items[i..][1..] == items[i + 1..];
        r := Invoke(fuel, fn, [carried, items[i]]);
        if !r.Ok? { return; }
        carried := r.value;
        i := i + 1;
      }
      assert items[i..] == [];
      r := Ok(carried);
    }
  }
}
