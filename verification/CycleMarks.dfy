/**
  Which cells the recalculation marks circular: exactly those from which, when the
  walk enters them, a chain of formulas not seen yet leads back to the stack or to
  the cell itself.
*/
module CycleMarks {
  import opened FormulaSyntax
  import opened CellAddress
  import opened Evaluator
  import opened Recalculation

  // A chain of affected formulas unseen so far, from `a` to one that depends on a
  // formula being worked on or on `a`.
  predicate LeadsBack(g: Graph, affected: set<Cell>, w: Walk, a: Cell, path: seq<Cell>) {
    && path != [] && path[0] == a && Chain(g, path) && Elements(path) <= affected - w.Seen()
    && exists d :: d in g.DepsOf(path[|path| - 1]) && (d in w.stack || d == a)
  }

  ghost predicate Meets(g: Graph, affected: set<Cell>, w: Walk, a: Cell) {
    exists path :: LeadsBack(g, affected, w, a, path)
  }

  // -------- the shape alone --------

  lemma PushShaped(g: Graph, affected: set<Cell>, w: Walk, a: Cell)
    requires Shaped(g, affected, w) && a in affected && a !in w.Seen() && MayVisit(g, w, a)
    ensures Shaped(g, affected, w.(stack := w.stack + [a]))
  {
    var p := w.(stack := w.stack + [a]);
    assert p.Seen() == w.Seen() + {a};
  }

  lemma MarkShaped(g: Graph, affected: set<Cell>, w: Walk, a: Cell)
    requires Shaped(g, affected, w) && a in affected && a in w.stack && a !in w.finished
    ensures Shaped(g, affected, Calc(g, affected, w, a))
    ensures forall c :: c in w.finished ==> (c in Calc(g, affected, w, a).cycles <==> c in w.cycles)
  {
    hide Calc, From;
    CalcSeen(g, affected, w, a);
    var r := Calc(g, affected, w, a);
    assert forall c :: c in From(w.stack, a) ==> c in w.stack;
    assert r.Seen() == w.Seen();
    forall c | c in w.finished && c in r.cycles ensures c in w.cycles {
      assert c in Elements(w.finished) && c !in Elements(w.stack);
    }
  }

  // A visit finishes the cell or finds it on the stack, and leaves the marks of
  // finished cells as they are.
  lemma {:induction false} CalcShaped(g: Graph, affected: set<Cell>, w: Walk, a: Cell)
    requires Shaped(g, affected, w) && a in affected && MayVisit(g, w, a)
    ensures var r := Calc(g, affected, w, a);
            && Shaped(g, affected, r) && (a in r.finished || a in r.stack)
            && forall c :: c in w.finished ==> (c in r.cycles <==> c in w.cycles)
    decreases affected - w.Seen(), 0
  {
    hide Shaped, Calc, CalcAll;
    if a in w.finished {
      CalcSeen(g, affected, w, a);
    } else if a in w.stack {
      MarkShaped(g, affected, w, a);
    } else {
      var pushed := w.(stack := w.stack + [a]);
      CalcUnseen(g, affected, w, a);
      PushShaped(g, affected, w, a);
      CalcAllShaped(g, affected, pushed, g.DepsOf(a));
      PopShaped(g, affected, CalcAll(g, affected, pushed, g.DepsOf(a)), Calc(g, affected, w, a), a);
    }
  }

  lemma {:induction false} CalcAllShaped(g: Graph, affected: set<Cell>, w: Walk, cells: seq<Cell>)
    requires Shaped(g, affected, w) && forall c :: c in cells ==> MayVisit(g, w, c)
    ensures var r := CalcAll(g, affected, w, cells);
            && Shaped(g, affected, r)
            && (forall c :: c in cells && c in affected ==> c in r.finished || c in r.stack)
            && forall c :: c in w.finished ==> (c in r.cycles <==> c in w.cycles)
    decreases affected - w.Seen(), 1 + |cells|
  {
    hide Shaped, Calc;
    if cells != [] {
      var a, rest := cells[0], cells[1..];
      assert cells == [a] + rest;
      var next := if a in affected then Calc(g, affected, w, a) else w;
      if a in affected { CalcShaped(g, affected, w, a); }
      forall c | c in rest ensures MayVisit(g, next, c) { assert c in cells; }
      CalcAllShaped(g, affected, next, rest);
    }
  }

  // -------- while a cell is being worked on --------

  // w lies inside the visit of `a` that began at w0.
  ghost predicate Inside(w0: Walk, a: Cell, w: Walk) {
    var n := |w0.stack|;
    && n < |w.stack| && w.stack[..n] == w0.stack && w.stack[n] == a && w0.finished <= w.finished
    && forall i :: n <= i < |w.stack| ==> w.stack[i] !in w0.Seen()
  }

  // Finished, or on the stack above the first n and the next.
  predicate Covered(w: Walk, n: nat, d: Cell) { d in w.finished || (n < |w.stack| && d in w.stack[n + 1..]) }

  ghost predicate DepsCovered(g: Graph, affected: set<Cell>, w: Walk, n: nat, c: Cell) {
    forall d :: d in g.DepsOf(c) && d in affected ==> Covered(w, n, d)
  }

  // Unless `a` is marked, what was finished inside its visit depends on nothing
  // that is still to come or lies on the stack up to `a`.
  ghost predicate Tight(g: Graph, affected: set<Cell>, w0: Walk, a: Cell, w: Walk) {
    a in w.cycles || forall i :: |w0.finished| <= i < |w.finished| ==> DepsCovered(g, affected, w, |w0.stack|, w.finished[i])
  }

  ghost predicate Going(g: Graph, affected: set<Cell>, w0: Walk, a: Cell, w: Walk) {
    Shaped(g, affected, w) && Inside(w0, a, w) && Tight(g, affected, w0, a, w)
  }

  lemma CoveredPush(g: Graph, affected: set<Cell>, w: Walk, n: nat, b: Cell, c: Cell)
    requires DepsCovered(g, affected, w, n, c) && n < |w.stack|
    ensures DepsCovered(g, affected, w.(stack := w.stack + [b]), n, c)
  {
    assert (w.stack + [b])[n + 1..] == w.stack[n + 1..] + [b];
  }

  lemma CoveredPop(g: Graph, affected: set<Cell>, w: Walk, r: Walk, n: nat, b: Cell, c: Cell)
    requires DepsCovered(g, affected, w, n, c) && w.stack == r.stack + [b] && r.finished == w.finished + [b] && n < |r.stack|
    ensures DepsCovered(g, affected, r, n, c)
  {
    assert w.stack[n + 1..] == r.stack[n + 1..] + [b];
    forall d | d in g.DepsOf(c) && d in affected ensures Covered(r, n, d) { assert Covered(w, n, d); }
  }

  lemma PushGoing(g: Graph, affected: set<Cell>, w0: Walk, a: Cell, w: Walk, b: Cell)
    requires Going(g, affected, w0, a, w) && b in affected && b !in w.Seen() && MayVisit(g, w, b)
    ensures Going(g, affected, w0, a, w.(stack := w.stack + [b]))
  {
    hide Shaped, DepsCovered;
    PushShaped(g, affected, w, b);
    var p := w.(stack := w.stack + [b]);
    assert p.stack[..|w0.stack|] == w.stack[..|w0.stack|];
    SeenGrows(w0, w);
    if a !in w.cycles {
      forall i | |w0.finished| <= i < |p.finished| ensures DepsCovered(g, affected, p, |w0.stack|, p.finished[i]) {
        CoveredPush(g, affected, w, |w0.stack|, b, p.finished[i]);
      }
    }
  }

  lemma SeenGrows(w0: Walk, w: Walk)
    requires |w0.stack| <= |w.stack| && w.stack[..|w0.stack|] == w0.stack && w0.finished <= w.finished
    ensures w0.Seen() <= w.Seen()
  {
    assert forall c :: c in w0.stack ==> c in w.stack;
    assert forall c :: c in w0.finished ==> c in w.finished;
  }

  lemma PopGoing(g: Graph, affected: set<Cell>, w0: Walk, a: Cell, w: Walk, r: Walk, b: Cell)
    requires Going(g, affected, w0, a, w) && w.stack == r.stack + [b] && r.finished == w.finished + [b] && r.cycles == w.cycles
    requires |w0.stack| < |r.stack| && (a in w.cycles || DepsCovered(g, affected, w, |w0.stack|, b))
    ensures Going(g, affected, w0, a, r)
  {
    hide Shaped, DepsCovered;
    PopShaped(g, affected, w, r, b);
    assert forall i :: 0 <= i < |r.stack| ==> r.stack[i] == w.stack[i];
    assert r.stack[..|w0.stack|] == w.stack[..|w0.stack|];
    if a !in w.cycles {
      forall i | |w0.finished| <= i < |r.finished| ensures DepsCovered(g, affected, r, |w0.stack|, r.finished[i]) {
        CoveredPop(g, affected, w, r, |w0.stack|, b, r.finished[i]);
      }
    }
  }

  // Meeting a cell of the stack: up to `a`, and `a` is marked with the chain from
  // it to the top as witness; above it, and nothing changes for `a`.
  lemma MarkGoing(g: Graph, affected: set<Cell>, w0: Walk, a: Cell, w: Walk, b: Cell)
    requires Going(g, affected, w0, a, w) && b in affected && b in w.stack && b !in w.finished && MayVisit(g, w, b)
    ensures var r := Calc(g, affected, w, b);
            && Going(g, affected, w0, a, r)
            && (a in r.cycles || Covered(r, |w0.stack|, b))
            && (a in r.cycles && a !in w.cycles ==> Meets(g, affected, w0, a))
  {
    hide Shaped, Calc, From, DepsCovered;
    var n, r := |w0.stack|, Calc(g, affected, w, b);
    CalcSeen(g, affected, w, b);
    MarkShaped(g, affected, w, b);
    var k := |w.stack| - |From(w.stack, b)|;
    assert w.stack[k] == b && From(w.stack, b) == w.stack[k..];
    if k <= n {
      assert w.stack[k..][n - k] == a && a in From(w.stack, b);
      BackToStack(g, affected, w0, a, w, k);
    } else {
      AboveIsUnmarked(g, affected, w, n, k);
      assert b in w.stack[n + 1..] by { assert w.stack[n + 1..][k - n - 1] == b; }
      if a !in w.cycles {
        forall i | |w0.finished| <= i < |r.finished| ensures DepsCovered(g, affected, r, n, r.finished[i]) {
          SameCover(g, affected, w, r, n, r.finished[i]);
        }
      }
    }
  }

  lemma SameCover(g: Graph, affected: set<Cell>, w: Walk, r: Walk, n: nat, c: Cell)
    requires DepsCovered(g, affected, w, n, c) && r.stack == w.stack && r.finished == w.finished
    ensures DepsCovered(g, affected, r, n, c)
  {
  }

  lemma AboveIsUnmarked(g: Graph, affected: set<Cell>, w: Walk, n: nat, k: nat)
    requires Shaped(g, affected, w) && n < k < |w.stack|
    ensures w.stack[n] !in w.stack[k..]
  {
    hide Chain;
  }

  lemma BackToStack(g: Graph, affected: set<Cell>, w0: Walk, a: Cell, w: Walk, k: nat)
    requires Shaped(g, affected, w) && Inside(w0, a, w) && k <= |w0.stack| && w.stack[k] in g.DepsOf(w.stack[|w.stack| - 1])
    ensures Meets(g, affected, w0, a)
  {
    var n, d := |w0.stack|, w.stack[k];
    var path := w.stack[n..];
    ChainEnd(g, w.stack, n);
    forall c | c in path ensures c in affected && c !in w0.Seen() {
      var i :| 0 <= i < |path| && path[i] == c;
      assert w.stack[n + i] == c && c in Elements(w.stack);
    }
    assert path[|path| - 1] == w.stack[|w.stack| - 1];
    assert d in w0.stack || d == a by { if k < n { assert w.stack[..n][k] == d; } }
    assert LeadsBack(g, affected, w0, a, path);
  }

  lemma {:induction false} CalcGoing(g: Graph, affected: set<Cell>, w0: Walk, a: Cell, w: Walk, b: Cell)
    requires Going(g, affected, w0, a, w) && b in affected && MayVisit(g, w, b)
    ensures var r := Calc(g, affected, w, b);
            && Going(g, affected, w0, a, r)
            && (a in r.cycles || Covered(r, |w0.stack|, b))
            && (a in r.cycles && a !in w.cycles ==> Meets(g, affected, w0, a))
    decreases affected - w.Seen(), 0
  {
    hide Shaped, Tight, DepsCovered, Meets, Calc, CalcAll;
    if b in w.finished {
      CalcSeen(g, affected, w, b);
    } else if b in w.stack {
      MarkGoing(g, affected, w0, a, w, b);
    } else {
      var pushed := w.(stack := w.stack + [b]);
      CalcUnseen(g, affected, w, b);
      PushGoing(g, affected, w0, a, w, b);
      CalcAllGoing(g, affected, w0, a, pushed, g.DepsOf(b));
      var inner := CalcAll(g, affected, pushed, g.DepsOf(b));
      if a !in inner.cycles { AllCovered(g, affected, inner, |w0.stack|, b); }
      PopGoing(g, affected, w0, a, inner, Calc(g, affected, w, b), b);
    }
  }

  lemma AllCovered(g: Graph, affected: set<Cell>, w: Walk, n: nat, c: Cell)
    requires forall d :: d in g.DepsOf(c) && d in affected ==> Covered(w, n, d)
    ensures DepsCovered(g, affected, w, n, c)
  {
  }

  lemma {:induction false} CalcAllGoing(g: Graph, affected: set<Cell>, w0: Walk, a: Cell, w: Walk, cells: seq<Cell>)
    requires Going(g, affected, w0, a, w) && forall c :: c in cells ==> MayVisit(g, w, c)
    ensures var r := CalcAll(g, affected, w, cells);
            && Going(g, affected, w0, a, r)
            && (a in r.cycles || forall d :: d in cells && d in affected ==> Covered(r, |w0.stack|, d))
            && (a in r.cycles && a !in w.cycles ==> Meets(g, affected, w0, a))
    decreases affected - w.Seen(), 1 + |cells|
  {
    hide Shaped, Tight, Inside, Meets, Calc;
    if cells != [] {
      var b, rest := cells[0], cells[1..];
      assert cells == [b] + rest;
      var next := if b in affected then Calc(g, affected, w, b) else w;
      if b in affected { CalcGoing(g, affected, w0, a, w, b); }
      forall c | c in rest ensures MayVisit(g, next, c) { assert c in cells; }
      CalcAllGoing(g, affected, w0, a, next, rest);
    }
  }

  // -------- the exact condition --------

  // A cell not seen before is marked during its visit if and only if a chain leads
  // back from it.
  lemma MarkedIfMeets(g: Graph, affected: set<Cell>, w: Walk, a: Cell)
    requires Shaped(g, affected, w) && a in affected && a !in w.Seen() && MayVisit(g, w, a)
    ensures a in Calc(g, affected, w, a).cycles <==> Meets(g, affected, w, a)
  {
    hide Calc, CalcAll, Shaped, Meets, Tight;
    var pushed := w.(stack := w.stack + [a]);
    CalcUnseen(g, affected, w, a);
    PushShaped(g, affected, w, a);
    EnterGoing(g, affected, w, a);
    CalcAllGoing(g, affected, w, a, pushed, g.DepsOf(a));
    var inner := CalcAll(g, affected, pushed, g.DepsOf(a));
    UnseenIsUnmarked(g, affected, w, a);
    if a !in inner.cycles && Meets(g, affected, w, a) {
      AllCovered(g, affected, inner, |w.stack|, a);
      NothingLeadsBack(g, affected, w, a, inner);
      assert false;
    }
  }

  lemma UnseenIsUnmarked(g: Graph, affected: set<Cell>, w: Walk, a: Cell)
    requires Shaped(g, affected, w) && a !in w.Seen()
    ensures a !in w.cycles
  {
  }

  lemma EnterGoing(g: Graph, affected: set<Cell>, w: Walk, a: Cell)
    requires a !in w.Seen() && Shaped(g, affected, w.(stack := w.stack + [a]))
    ensures Going(g, affected, w, a, w.(stack := w.stack + [a]))
  {
    hide Shaped;
    assert (w.stack + [a])[..|w.stack|] == w.stack;
  }

  lemma NothingLeadsBack(g: Graph, affected: set<Cell>, w0: Walk, a: Cell, w: Walk)
    requires Going(g, affected, w0, a, w) && w.stack == w0.stack + [a] && a !in w.cycles && a in affected
    requires DepsCovered(g, affected, w, |w0.stack|, a)
    ensures !Meets(g, affected, w0, a)
  {
    hide Tight, DepsCovered;
    forall path | LeadsBack(g, affected, w0, a, path) ensures false {
      var last := path[|path| - 1];
      var d :| d in g.DepsOf(last) && (d in w0.stack || d == a);
      PathIsFinished(g, affected, w0, a, w, path, |path| - 1);
      assert d in w.stack && d in Elements(w.stack) && d in affected;
      StepIsFinished(g, affected, w0, a, w, last, d);
    }
  }

  lemma {:induction false} PathIsFinished(g: Graph, affected: set<Cell>, w0: Walk, a: Cell, w: Walk, path: seq<Cell>, k: nat)
    requires Going(g, affected, w0, a, w) && w.stack == w0.stack + [a] && a !in w.cycles
    requires DepsCovered(g, affected, w, |w0.stack|, a) && LeadsBack(g, affected, w0, a, path) && k < |path|
    ensures path[k] == a || path[k] in w.finished
    decreases k
  {
    hide Going, DepsCovered;
    if k > 0 {
      PathIsFinished(g, affected, w0, a, w, path, k - 1);
      assert path[(k - 1) + 1] in g.DepsOf(path[k - 1]);
      assert path[k] in Elements(path) && path[k - 1] in Elements(path);
      StepIsFinished(g, affected, w0, a, w, path[k - 1], path[k]);
    }
  }

  lemma StepIsFinished(g: Graph, affected: set<Cell>, w0: Walk, a: Cell, w: Walk, c: Cell, d: Cell)
    requires Going(g, affected, w0, a, w) && w.stack == w0.stack + [a] && a !in w.cycles && DepsCovered(g, affected, w, |w0.stack|, a)
    requires (c == a || c in w.finished) && c !in w0.Seen() && d in g.DepsOf(c) && d in affected
    ensures d in w.finished
  {
    hide Shaped;
    assert w.stack[|w0.stack| + 1..] == [];
    if c != a {
      var i :| 0 <= i < |w.finished| && w.finished[i] == c;
      assert forall j :: 0 <= j < |w0.finished| ==> w.finished[j] == w0.finished[j] && w0.finished[j] in Elements(w0.finished);
      assert DepsCovered(g, affected, w, |w0.stack|, w.finished[i]);
    }
    assert Covered(w, |w0.stack|, d);
  }

  // -------- over a whole recalculation --------

  // Where the walk stands when it enters c, if it does, while visiting `a` ...
  function EnteredBy(g: Graph, affected: set<Cell>, w: Walk, a: Cell, c: Cell): Option<Walk>
    requires a in affected
    decreases affected - w.Seen(), 0
  {
    if a in w.finished || a in w.stack then None
    else if a == c then Some(w)
    else
      var pushed := w.(stack := w.stack + [a]);
      assert pushed.Seen() == w.Seen() + {a} && a in affected - w.Seen();
      EnteredIn(g, affected, pushed, g.DepsOf(a), c)
  }

  // ... and while visiting several cells in turn.
  function EnteredIn(g: Graph, affected: set<Cell>, w: Walk, cells: seq<Cell>, c: Cell): Option<Walk>
    decreases affected - w.Seen(), 1 + |cells|
  {
    if cells == [] then None
    else if cells[0] !in affected then EnteredIn(g, affected, w, cells[1..], c)
    else
      var entered := EnteredBy(g, affected, w, cells[0], c);
      if entered.Some? then entered else EnteredIn(g, affected, Calc(g, affected, w, cells[0]), cells[1..], c)
  }

  // The moment c is entered, and whether its own visit marks it.
  ghost predicate EntersAt(g: Graph, affected: set<Cell>, x: Walk, c: Cell, marked: bool)
    requires c in affected
  {
    Shaped(g, affected, x) && c !in x.Seen() && MayVisit(g, x, c) && (marked <==> c in Calc(g, affected, x, c).cycles)
  }

  lemma {:induction false} EnteredByAt(g: Graph, affected: set<Cell>, w: Walk, a: Cell, c: Cell)
    requires Shaped(g, affected, w) && a in affected && MayVisit(g, w, a) && c in affected && c !in w.Seen()
    ensures var r, entered := Calc(g, affected, w, a), EnteredBy(g, affected, w, a, c);
            if c in r.Seen() then entered.Some? && c in r.finished && EntersAt(g, affected, entered.value, c, c in r.cycles)
            else entered.None?
    decreases affected - w.Seen(), 0
  {
    hide Shaped, Calc, CalcAll, EntersAt;
    CalcShaped(g, affected, w, a);
    if a in w.finished || a in w.stack {
      CalcSeen(g, affected, w, a);
      SameSeen(w, Calc(g, affected, w, a));
    } else if a == c {
      CalcUnseen(g, affected, w, a);
      EntersHere(g, affected, w, c);
    } else {
      var pushed := w.(stack := w.stack + [a]);
      CalcUnseen(g, affected, w, a);
      PushShaped(g, affected, w, a);
      assert pushed.Seen() == w.Seen() + {a};
      EnteredInAt(g, affected, pushed, g.DepsOf(a), c);
      var inner := CalcAll(g, affected, pushed, g.DepsOf(a));
      assert c in inner.Seen() <==> c in Calc(g, affected, w, a).Seen();
    }
  }

  lemma SameSeen(w: Walk, r: Walk)
    requires r.stack == w.stack && r.finished == w.finished
    ensures r.Seen() == w.Seen()
  {
  }

  lemma EntersHere(g: Graph, affected: set<Cell>, w: Walk, c: Cell)
    requires Shaped(g, affected, w) && c in affected && c !in w.Seen() && MayVisit(g, w, c)
    ensures EntersAt(g, affected, w, c, c in Calc(g, affected, w, c).cycles)
  {
  }

  lemma {:induction false} EnteredInAt(g: Graph, affected: set<Cell>, w: Walk, cells: seq<Cell>, c: Cell)
    requires Shaped(g, affected, w) && (forall a :: a in cells ==> MayVisit(g, w, a)) && c in affected && c !in w.Seen()
    ensures var r, entered := CalcAll(g, affected, w, cells), EnteredIn(g, affected, w, cells, c);
            if c in r.Seen() then entered.Some? && c in r.finished && EntersAt(g, affected, entered.value, c, c in r.cycles)
            else entered.None?
    decreases affected - w.Seen(), 1 + |cells|
  {
    hide Shaped, Calc, EntersAt, EnteredBy;
    if cells != [] {
      var a, rest := cells[0], cells[1..];
      assert cells == [a] + rest;
      var next := if a in affected then Calc(g, affected, w, a) else w;
      if a in affected {
        CalcShaped(g, affected, w, a);
        EnteredByAt(g, affected, w, a, c);
      }
      forall x | x in rest ensures MayVisit(g, next, x) { assert x in cells; }
      if c in next.Seen() {
        CalcAllShaped(g, affected, next, rest);
      } else {
        EnteredInAt(g, affected, next, rest, c);
      }
    }
  }

  lemma StartShaped(g: Graph, affected: set<Cell>, base: Sheet)
    ensures Shaped(g, affected, Start(base)) && Start(base).Seen() == {}
  {
  }

  // In a whole recalculation every affected cell is entered once, and ends up
  // marked if and only if a chain leads back from it at that moment.
  lemma MarkedExactly(g: Graph, affected: set<Cell>, base: Sheet, addresses: seq<Cell>, c: Cell)
    requires Elements(addresses) == affected && c in affected
    ensures var entered := EnteredIn(g, affected, Start(base), addresses, c);
            && entered.Some?
            && (c in CalcAll(g, affected, Start(base), addresses).cycles <==> Meets(g, affected, entered.value, c))
  {
    hide Shaped, Calc, CalcAll, EnteredIn, Meets;
    StartShaped(g, affected, base);
    EnteredInAt(g, affected, Start(base), addresses, c);
    CalcAllShaped(g, affected, Start(base), addresses);
    assert c in Elements(addresses);
    var entered := EnteredIn(g, affected, Start(base), addresses, c);
    MarkedIfMeets(g, affected, entered.value, c);
  }

  // So all cells on cycles are marked if and only if such a chain leads back from
  // each of them when it is entered.
  lemma CyclesMarkedIff(g: Graph, affected: set<Cell>, base: Sheet, addresses: seq<Cell>)
    requires Elements(addresses) == affected
    ensures (forall c :: OnCycle(g, affected, c) ==> c in CalcAll(g, affected, Start(base), addresses).cycles)
       <==> forall c :: OnCycle(g, affected, c) ==> LedBack(g, affected, base, addresses, c)
  {
    hide CalcAll, EnteredIn, Meets;
    forall c | OnCycle(g, affected, c)
      ensures c in CalcAll(g, affected, Start(base), addresses).cycles <==> LedBack(g, affected, base, addresses, c)
    {
      var path :| Cycle(g, affected, path) && c in path;
      assert c in Elements(path);
      MarkedExactly(g, affected, base, addresses, c);
    }
  }

  ghost predicate LedBack(g: Graph, affected: set<Cell>, base: Sheet, addresses: seq<Cell>, c: Cell) {
    var entered := EnteredIn(g, affected, Start(base), addresses, c);
    entered.Some? && Meets(g, affected, entered.value, c)
  }

  // -------- values play no part --------

  predicate SameShape(w: Walk, v: Walk) { w.stack == v.stack && w.finished == v.finished && w.cycles == v.cycles }

  // What is visited and marked depends on the dependencies and their order alone.
  lemma {:induction false} CalcSameShape(g: Graph, h: Graph, affected: set<Cell>, w: Walk, v: Walk, a: Cell)
    requires g.deps == h.deps && SameShape(w, v) && a in affected
    ensures SameShape(Calc(g, affected, w, a), Calc(h, affected, v, a))
    decreases affected - w.Seen(), 0
  {
    hide Calc, CalcAll, From;
    if a in w.finished || a in w.stack {
      CalcSeen(g, affected, w, a);
      CalcSeen(h, affected, v, a);
    } else {
      CalcUnseen(g, affected, w, a);
      CalcUnseen(h, affected, v, a);
      CalcAllSameShape(g, h, affected, w.(stack := w.stack + [a]), v.(stack := v.stack + [a]), g.DepsOf(a));
    }
  }

  lemma {:induction false} CalcAllSameShape(g: Graph, h: Graph, affected: set<Cell>, w: Walk, v: Walk, cells: seq<Cell>)
    requires g.deps == h.deps && SameShape(w, v)
    ensures SameShape(CalcAll(g, affected, w, cells), CalcAll(h, affected, v, cells))
    decreases affected - w.Seen(), 1 + |cells|
  {
    hide Calc;
    if cells != [] {
      var a := cells[0];
      if a in affected { CalcSameShape(g, h, affected, w, v, a); }
      CalcAllSameShape(g, h, affected, if a in affected then Calc(g, affected, w, a) else w,
                       if a in affected then Calc(h, affected, v, a) else v, cells[1..]);
    }
  }
}
