/**
  Plans whose cell operations work on areas apart: for them an approval after
  compensated attempts has the plan's effect exactly when the calls got to were
  creations of objects or would change no cell.
*/
module SagaApart {
  import opened CellAddress
  import opened Saga
  import opened SagaRetry
  import opened SagaEffect
  import opened SagaLockstep
  import opened SagaAgain

  predicate WritesAt(tool: Tool, c: Cell) { tool.WriteCells? && tool.sheet == c.sheet && (c.row, c.column) in tool.area }

  // No cell lies in the areas of two cell operations of the plan.
  ghost predicate AreasApart(tools: seq<Tool>) {
    forall i, j, c :: 0 <= i < j < |tools| && WritesAt(tools[i], c) ==> !WritesAt(tools[j], c)
  }

  lemma ApartRest(tools: seq<Tool>)
    requires tools != [] && AreasApart(tools)
    ensures AreasApart(tools[1..])
    ensures forall t, c :: t in tools[1..] && WritesAt(t, c) ==> !WritesAt(tools[0], c)
  {
    var rest := tools[1..];
    forall i, j, c | 0 <= i < j < |rest| && WritesAt(rest[i], c) ensures !WritesAt(rest[j], c) {
      assert rest[i] == tools[i + 1] && rest[j] == tools[j + 1];
    }
    forall t, c | t in rest && WritesAt(t, c) ensures !WritesAt(tools[0], c) {
      var i :| 0 <= i < |rest| && rest[i] == t;
      assert tools[i + 1] == t;
    }
  }

  // -------- one cell through a run --------

  // A call writes into the old cells of its area only, and only under a new key.
  lemma ToolCell(s: Store, tool: Tool, c: Cell)
    requires s.WellFormed() && RunTool(s, tool).Some? && c.sheet < s.nextId
    ensures !WritesAt(tool, c) || TextKey(tool) in s.done ==> RunTool(s, tool).value.0.Get(c) == s.Get(c)
    ensures tool.WriteCells? && WritesAt(tool, c) && TextKey(tool) !in s.done && (c.row, c.column) in Rewritten(s, tool).value ==>
              RunTool(s, tool).value.0.Get(c) == Rewritten(s, tool).value[(c.row, c.column)]
    ensures s.nextId <= RunTool(s, tool).value.0.nextId
  {
    hide RunTool, Store.WriteOnce, Store.WellFormed, Store.Get;
    RunToolAdds(s, tool);
    match tool {
      case WriteCells(_, sheet, _, _) =>
        WriteRuns(s, tool);
        SheetsAreOld(s);
        OnceFacts(s, TextKey(tool), sheet, Rewritten(s, tool).value);
      case CreateReport(_, _, _, _) => ReportCell(s, tool, c);
      case _ => OtherCell(s, tool, c);
    }
  }

  lemma OtherCell(s: Store, tool: Tool, c: Cell)
    requires RunTool(s, tool).Some? && !WritesText(tool)
    ensures RunTool(s, tool).value.0.Get(c) == s.Get(c)
  {
  }

  // What a report leaves: one more sheet under its name, with its text under a new
  // key and blank under a known one.
  lemma ReportCell(s: Store, tool: Tool, c: Cell)
    requires s.WellFormed() && tool.CreateReport? && RunTool(s, tool).Some?
    ensures var s1 := RunTool(s, tool).value.0;
            && s1.sheets == s.sheets[s.nextId := tool.name] && s.nextId < s1.nextId
            && (c.sheet < s.nextId ==> s1.Get(c) == s.Get(c))
            && (c.sheet == s.nextId ==>
                  s1.Get(c) == if TextKey(tool) !in s.done && (c.row, c.column) in tool.text then tool.text[(c.row, c.column)] else "")
  {
    hide RunTool, Store.WriteOnce, Store.WellFormed, Store.Get;
    ReportRuns(s, tool);
    SheetShape(s, tool.name);
    SheetFacts(s, tool.name);
    SheetCells(s, tool.name, c);
    var w := AddSheet(s, tool.name);
    OnceFacts(w, TextKey(tool), s.nextId, tool.text);
    if tool.graph.Some? {
      ObjectCells(w.WriteOnce(TextKey(tool), Placed(s.nextId, tool.text)), Key(tool.key, ReportGraph), Chart, tool.graph.value, s.nextId, c);
    }
  }

  // A cell no call of the run writes under a new key keeps its text.
  lemma {:induction false} CellStays(s: Store, tools: seq<Tool>, c: Cell)
    requires s.WellFormed() && After(s, tools).ok && c.sheet < s.nextId
    requires forall t :: t in tools && WritesAt(t, c) ==> TextKey(t) in s.done
    ensures After(s, tools).store.Get(c) == s.Get(c)
    decreases |tools|
  {
    hide RunTool, Saga.Execute, Store.WellFormed, Store.Get, WritesAt, TextKey;
    if tools == [] {
      Nothing(s);
    } else {
      AfterStep(s, tools);
      assert tools[0] in tools;
      ToolCell(s, tools[0], c);
      ToolDone(s, tools[0]);
      RunToolKeepsShape(s, tools[0]);
      assert forall t :: t in tools[1..] ==> t in tools;
      CellStays(RunTool(s, tools[0]).value.0, tools[1..], c);
    }
  }

  // -------- areas as they were --------

  // x holds in the areas of the tools what s holds.
  ghost predicate Agrees(s: Store, x: Store, tools: seq<Tool>) {
    forall t, c :: t in tools && WritesAt(t, c) ==> x.Get(c) == s.Get(c)
  }

  lemma SameChange(s: Store, x: Store, tools: seq<Tool>, tool: Tool)
    requires Agrees(s, x, tools) && tool in tools
    ensures tool.WriteCells? ==> Rewritten(s, tool) == Rewritten(x, tool)
    ensures Changes(s, tool) <==> Changes(x, tool)
  {
    hide Store.Get;
    if tool.WriteCells? {
      forall p: Place | p in tool.area ensures x.Get(Cell(tool.sheet, p.0, p.1)) == s.Get(Cell(tool.sheet, p.0, p.1)) {
        assert WritesAt(tool, Cell(tool.sheet, p.0, p.1));
      }
      assert Contents(s, tool.sheet, tool.area) == Contents(x, tool.sheet, tool.area);
    }
  }

  // A call leaves the areas of the others alone.
  lemma StillAgrees(lo: Id, s: Store, x: Store, tools: seq<Tool>)
    requires x.WellFormed() && lo <= x.nextId && tools != [] && AllOld(lo, tools) && Agrees(s, x, tools) && AreasApart(tools)
    requires RunTool(x, tools[0]).Some?
    ensures Agrees(s, RunTool(x, tools[0]).value.0, tools[1..]) && lo <= RunTool(x, tools[0]).value.0.nextId
  {
    hide RunTool, Store.WellFormed, Store.Get;
    ApartRest(tools);
    RunToolAdds(x, tools[0]);
    forall t, c | t in tools[1..] && WritesAt(t, c) ensures RunTool(x, tools[0]).value.0.Get(c) == s.Get(c) {
      assert t in tools && Old(lo, t);
      ToolCell(x, tools[0], c);
    }
  }

  lemma {:induction false} UnnoticedApart(lo: Id, s: Store, x: Store, made: set<Key>, tools: seq<Tool>)
    requires x.WellFormed() && lo <= x.nextId && AllOld(lo, tools) && Agrees(s, x, tools) && AreasApart(tools)
    requires forall t :: t in tools && WritesText(t) && TextKey(t) in made ==> !Changes(s, t)
    ensures Unnoticed(x, made, tools)
    decreases |tools|
  {
    hide RunTool, Changes, Store.WellFormed, AreasApart, Agrees;
    if tools != [] {
      assert tools[0] in tools;
      SameChange(s, x, tools, tools[0]);
      if RunTool(x, tools[0]).Some? {
        StillAgrees(lo, s, x, tools);
        ApartRest(tools);
        RunToolKeepsShape(x, tools[0]);
        assert forall t :: t in tools[1..] ==> t in tools;
        UnnoticedApart(lo, s, RunTool(x, tools[0]).value.0, made, tools[1..]);
      }
    }
  }

  // In a whole run each cell operation writes what it would on the store as it was.
  lemma {:induction false} WholeWrites(lo: Id, s: Store, x: Store, tools: seq<Tool>, i: nat, p: Place)
    requires x.WellFormed() && lo <= x.nextId && AllOld(lo, tools) && Agrees(s, x, tools) && AreasApart(tools) && DistinctKeys(tools)
    requires i < |tools| && tools[i].WriteCells? && TextKey(tools[i]) !in x.done && After(x, tools).ok
    requires Rewritten(s, tools[i]).Some? && p in Rewritten(s, tools[i]).value
    ensures After(x, tools).store.Get(Cell(tools[i].sheet, p.0, p.1)) == Rewritten(s, tools[i]).value[p]
    decreases i
  {
    hide RunTool, Saga.Execute, Store.WellFormed, Store.Get, AreasApart, Agrees;
    AfterStep(x, tools);
    var x1, c := RunTool(x, tools[0]).value.0, Cell(tools[i].sheet, p.0, p.1);
    assert tools[i] in tools && tools[0] in tools;
    StillAgrees(lo, s, x, tools);
    ApartRest(tools);
    RunToolKeepsShape(x, tools[0]);
    RestDistinct(tools);
    ToolDone(x, tools[0]);
    assert WritesAt(tools[i], c) by { InArea(s, tools[i], p); }
    if i == 0 {
      SameChange(s, x, tools, tools[0]);
      ToolCell(x, tools[0], c);
      CellStays(x1, tools[1..], c);
    } else {
      assert tools[1..][i - 1] == tools[i] && tools[i] in tools[1..];
      WholeWrites(lo, s, x1, tools[1..], i - 1, p);
    }
  }

  lemma InArea(s: Store, tool: Tool, p: Place)
    requires tool.WriteCells? && Rewritten(s, tool).Some? && p in Rewritten(s, tool).value
    ensures p in tool.area
  {
  }

  // -------- a report by its name --------

  lemma {:induction false} SheetsStay(s: Store, tools: seq<Tool>, sheet: Id)
    requires s.WellFormed() && After(s, tools).ok && sheet in s.sheets
    ensures var t := After(s, tools).store; sheet in t.sheets && t.sheets[sheet] == s.sheets[sheet]
    decreases |tools|
  {
    hide RunTool, Saga.Execute, Store.WellFormed;
    if tools == [] {
      Nothing(s);
    } else {
      AfterStep(s, tools);
      RunToolAdds(s, tools[0]);
      RunToolKeepsShape(s, tools[0]);
      SheetsStay(RunTool(s, tools[0]).value.0, tools[1..], sheet);
    }
  }

  ghost predicate OnlyNamed(s: Store, name: string, sheet: Id) { forall j :: j in s.sheets && s.sheets[j] == name ==> j == sheet }

  // A name that is taken is not given again.
  lemma {:induction false} NamedOnce(s: Store, tools: seq<Tool>, name: string, sheet: Id)
    requires s.WellFormed() && After(s, tools).ok && sheet in s.sheets && s.sheets[sheet] == name && OnlyNamed(s, name, sheet)
    ensures OnlyNamed(After(s, tools).store, name, sheet)
    decreases |tools|
  {
    hide RunTool, Saga.Execute, Store.WellFormed;
    if tools == [] {
      Nothing(s);
    } else {
      AfterStep(s, tools);
      RunToolAdds(s, tools[0]);
      RunToolKeepsShape(s, tools[0]);
      OneNamed(s, tools[0], name, sheet);
      NamedOnce(RunTool(s, tools[0]).value.0, tools[1..], name, sheet);
    }
  }

  lemma OneNamed(s: Store, tool: Tool, name: string, sheet: Id)
    requires s.WellFormed() && RunTool(s, tool).Some? && sheet in s.sheets && s.sheets[sheet] == name && OnlyNamed(s, name, sheet)
    ensures OnlyNamed(RunTool(s, tool).value.0, name, sheet)
  {
    hide Store.WellFormed, WriteReport, Store.Write, Rewritten;
    if tool.CreateReport? {
      ReportCell(s, tool, Cell(0, 0, 0));
      assert !s.Taken(tool.name);
    }
    if tool.WriteCells? { WriteFacts(s, Writes(s, tool).value); }
  }

  // No cell of a sheet made in the run is in an area.
  lemma NewSheetUntouched(lo: Id, tools: seq<Tool>, c: Cell)
    requires AllOld(lo, tools) && c.sheet >= lo
    ensures forall t :: t in tools ==> !WritesAt(t, c)
  {
    forall t | t in tools ensures !WritesAt(t, c) { assert Old(lo, t); }
  }

  // Under a new key the report's text is there in the end ...
  lemma {:induction false} ReportSays(lo: Id, x: Store, tools: seq<Tool>, i: nat, p: Place) returns (sheet: Id)
    requires x.WellFormed() && lo <= x.nextId && AllOld(lo, tools) && DistinctKeys(tools) && After(x, tools).ok
    requires i < |tools| && tools[i].CreateReport? && TextKey(tools[i]) !in x.done && p in tools[i].text
    ensures var t := After(x, tools).store;
            sheet in t.sheets && t.sheets[sheet] == tools[i].name && t.Get(Cell(sheet, p.0, p.1)) == tools[i].text[p]
    decreases i
  {
    hide RunTool, Saga.Execute, Store.WellFormed, Store.Get;
    AfterStep(x, tools);
    var x1 := RunTool(x, tools[0]).value.0;
    RunToolKeepsShape(x, tools[0]);
    RunToolAdds(x, tools[0]);
    RestDistinct(tools);
    ToolDone(x, tools[0]);
    if i == 0 {
      sheet := x.nextId;
      var c := Cell(sheet, p.0, p.1);
      ReportCell(x, tools[0], c);
      NewSheetUntouched(lo, tools[1..], c);
      CellStays(x1, tools[1..], c);
      SheetsStay(x1, tools[1..], sheet);
    } else {
      assert tools[1..][i - 1] == tools[i] && tools[i] in tools[1..];
      sheet := ReportSays(lo, x1, tools[1..], i - 1, p);
    }
  }

  // ... and under a known one the sheet by its name is blank.
  lemma {:induction false} ReportIsBlank(lo: Id, x: Store, tools: seq<Tool>, i: nat, p: Place, j: Id)
    requires x.WellFormed() && lo <= x.nextId && AllOld(lo, tools) && After(x, tools).ok
    requires i < |tools| && tools[i].CreateReport? && TextKey(tools[i]) in x.done
    requires j in After(x, tools).store.sheets && After(x, tools).store.sheets[j] == tools[i].name
    ensures After(x, tools).store.Get(Cell(j, p.0, p.1)) == ""
    decreases i
  {
    hide RunTool, Saga.Execute, Store.WellFormed, Store.Get, Store.Taken;
    AfterStep(x, tools);
    var x1 := RunTool(x, tools[0]).value.0;
    RunToolKeepsShape(x, tools[0]);
    RunToolAdds(x, tools[0]);
    OldRest(lo, tools);
    if i == 0 {
      var c := Cell(x.nextId, p.0, p.1);
      ReportCell(x, tools[0], c);
      ReportName(x, tools[0]);
      NewSheetUntouched(lo, tools[1..], c);
      CellStays(x1, tools[1..], c);
      NamedOnce(x1, tools[1..], tools[0].name, x.nextId);
    } else {
      ToolDone(x, tools[0]);
      assert tools[1..][i - 1] == tools[i];
      ReportIsBlank(lo, x1, tools[1..], i - 1, p, j);
    }
  }

  lemma OldRest(lo: Id, tools: seq<Tool>)
    requires tools != [] && AllOld(lo, tools)
    ensures AllOld(lo, tools[1..])
  {
  }

  lemma ReportName(s: Store, tool: Tool)
    requires s.WellFormed() && tool.CreateReport? && RunTool(s, tool).Some?
    ensures OnlyNamed(RunTool(s, tool).value.0, tool.name, s.nextId)
  {
    hide RunTool, Store.WellFormed;
    ReportCell(s, tool, Cell(0, 0, 0));
    ReportRuns(s, tool);
  }

  // -------- the condition --------

  // Each of the first q calls creates an object or would change no cell of the
  // workbook as it was.
  ghost predicate Harmless(s: Store, tools: seq<Tool>, q: nat)
    requires q <= |tools|
  {
    forall i :: 0 <= i < q ==> !tools[i].UpdateChart? && !Changes(s, tools[i])
  }

  lemma KnownTexts(s: Store, tools: seq<Tool>, runs: seq<seq<Env>>, i: nat)
    requires Tried(s, tools, runs) && i < Reached(s, tools, runs) && WritesText(tools[i])
    ensures TextKey(tools[i]) in Settled(s, tools, runs).done
  {
    hide Saga.Execute, Settled, Reached, Updates, Admitted, Unused, Same, Back, Store.WellFormed;
    TriedFacts(s, tools, runs);
    assert tools[i] in tools[..Reached(s, tools, runs)];
  }

  lemma TextsAreEarly(s: Store, tools: seq<Tool>, q: nat)
    requires DistinctKeys(tools) && q <= |tools| && Harmless(s, tools, q)
    ensures forall t :: t in tools && WritesText(t) && TextKey(t) in Texts(tools[..q]) ==> !Changes(s, t)
  {
    hide Changes;
    forall t | t in tools && WritesText(t) && TextKey(t) in Texts(tools[..q]) ensures !Changes(s, t) {
      var j :| 0 <= j < |tools| && tools[j] == t;
      var e :| e in tools[..q] && WritesText(e) && TextKey(e) == TextKey(t);
      var i :| 0 <= i < q && tools[i] == e;
      assert tools[i].key == tools[j].key;
    }
  }

  // A sort or a report that changed cells and was compensated leaves the next run
  // without its effect.
  lemma ChangeIsLost(s: Store, tools: seq<Tool>, runs: seq<seq<Env>>, i: nat)
    requires Tried(s, tools, runs) && AreasApart(tools) && i < Reached(s, tools, runs) && Changes(s, tools[i])
    ensures !Effective(s, tools, Settled(s, tools, runs))
  {
    hide Saga.Execute, Settled, Reached, Updates, Changes, Alike, Store.WellFormed, Store.Get, AreasApart, Back, Unused, Admitted;
    var u := Settled(s, tools, runs);
    if Effective(s, tools, u) {
      TriedFacts(s, tools, runs);
      PlanIsOld(s, tools);
      ChangingWrites(s, tools[i]);
      KnownTexts(s, tools, runs, i);
      NewKey(s, tools, i);
      var r :| Alike(s.nextId, r, After(s, tools).store, After(u, tools).store);
      if tools[i].WriteCells? {
        SortIsLost(s, u, tools, i, r);
      } else {
        ReportIsLost(s, u, tools, i, r);
      }
      assert false;
    }
  }

  lemma ChangingWrites(s: Store, tool: Tool)
    requires Changes(s, tool)
    ensures WritesText(tool)
  {
  }

  lemma NewKey(s: Store, tools: seq<Tool>, i: nat)
    requires Unused(s, tools) && i < |tools|
    ensures TextKey(tools[i]) !in s.done
  {
    assert tools[i] in tools;
  }

  lemma OldCellAlike(lo: Id, r: Renaming, a: Store, b: Store, c: Cell)
    requires Alike(lo, r, a, b) && c.sheet < lo
    ensures b.Get(c) == a.Get(c)
  {
    hide Store.Get;
    assert CellAlike(lo, r, a, b, c) && RenamesAt(lo, r, c.sheet);
  }

  lemma SortIsLost(s: Store, u: Store, tools: seq<Tool>, i: nat, r: Renaming)
    requires s.WellFormed() && u.WellFormed() && s.nextId <= u.nextId && (forall c :: u.Get(c) == s.Get(c))
    requires AllOld(s.nextId, tools) && DistinctKeys(tools) && AreasApart(tools) && After(s, tools).ok && After(u, tools).ok
    requires i < |tools| && tools[i].WriteCells? && Changes(s, tools[i]) && TextKey(tools[i]) !in s.done && TextKey(tools[i]) in u.done
    ensures !Alike(s.nextId, r, After(s, tools).store, After(u, tools).store)
  {
    hide Saga.Execute, Store.WellFormed, Store.Get, RunTool;
    var tool := tools[i];
    var text := Rewritten(s, tool).value;
    var p :| p in text && s.Get(Cell(tool.sheet, p.0, p.1)) != text[p];
    var c := Cell(tool.sheet, p.0, p.1);
    InArea(s, tool, p);
    WholeWrites(s.nextId, s, s, tools, i, p);
    forall t | t in tools && WritesAt(t, c) ensures TextKey(t) in u.done {
      var j :| 0 <= j < |tools| && tools[j] == t;
      assert j == i by { assert WritesAt(tools[i], c) && WritesAt(tools[j], c); }
    }
    assert tool in tools && Old(s.nextId, tool);
    CellStays(u, tools, c);
    if Alike(s.nextId, r, After(s, tools).store, After(u, tools).store) {
      OldCellAlike(s.nextId, r, After(s, tools).store, After(u, tools).store, c);
      assert false;
    }
  }

  lemma ReportIsLost(s: Store, u: Store, tools: seq<Tool>, i: nat, r: Renaming)
    requires s.WellFormed() && u.WellFormed() && s.nextId <= u.nextId
    requires AllOld(s.nextId, tools) && DistinctKeys(tools) && After(s, tools).ok && After(u, tools).ok
    requires i < |tools| && tools[i].CreateReport? && Changes(s, tools[i]) && TextKey(tools[i]) !in s.done && TextKey(tools[i]) in u.done
    ensures !Alike(s.nextId, r, After(s, tools).store, After(u, tools).store)
  {
    hide Saga.Execute, Store.WellFormed, Store.Get, RunTool;
    var lo, whole, second := s.nextId, After(s, tools).store, After(u, tools).store;
    var p :| p in tools[i].text && tools[i].text[p] != "";
    var sheet := ReportSays(lo, s, tools, i, p);
    if Alike(lo, r, whole, second) {
      var c := Cell(sheet, p.0, p.1);
      assert SheetAlike(r, whole, second, sheet) && CellAlike(lo, r, whole, second, c);
      ReportIsBlank(lo, u, tools, i, p, r.to(sheet));
      assert false;
    }
  }

  // Approved again after any number of compensated attempts, a plan whose areas are
  // apart goes through with its effect if and only if it would have gone through the
  // first time and every call they got to was harmless.
  lemma ApprovedAgain(s: Store, tools: seq<Tool>, runs: seq<seq<Env>>)
    requires Tried(s, tools, runs) && AreasApart(tools)
    ensures Effective(s, tools, Settled(s, tools, runs)) <==> After(s, tools).ok && Harmless(s, tools, Reached(s, tools, runs))
  {
    hide Saga.Execute, Settled, Reached, Updates, Changes, SameEffect, AreasApart, Unused, Store.WellFormed;
    var q := Reached(s, tools, runs);
    if !After(s, tools).ok {
    } else if Harmless(s, tools, q) {
      PlanIsOld(s, tools);
      TextsAreEarly(s, tools, q);
      UnnoticedApart(s.nextId, s, s, Texts(tools[..q]), tools);
      HarmlessIsEffective(s, tools, runs);
    } else {
      var i :| 0 <= i < q && (tools[i].UpdateChart? || Changes(s, tools[i]));
      if tools[i].UpdateChart? {
        UpdateIsRefused(s, tools, runs, i);
      } else {
        ChangeIsLost(s, tools, runs, i);
      }
    }
  }

  // -------- areas that overlap --------

  // Two operations on one cell, the second of which failed: the first, made and
  // undone, changed the cell and is not made again, but the second hides that.
  lemma OverlapHides(s: Store, sheet: Id, x: string, y: string)
    requires s.WellFormed() && sheet in s.sheets && s.Get(Cell(sheet, 1, 1)) != x
    requires forall key, part :: Key(key, part) !in s.keyed && Key(key, part) !in s.done
    ensures var first := WriteCells(0, sheet, {(1, 1)}, _ => Some(map[(1, 1) := x]));
            var second := WriteCells(1, sheet, {(1, 1)}, _ => Some(map[(1, 1) := y]));
            var tools, runs := [first, second], [[Fine, Breaks(Before)]];
            && Tried(s, tools, runs) && Reached(s, tools, runs) == 1 && Changes(s, first)
            && Effective(s, tools, Settled(s, tools, runs))
  {
    var first := WriteCells(0, sheet, {(1, 1)}, _ => Some(map[(1, 1) := x]));
    var second := WriteCells(1, sheet, {(1, 1)}, _ => Some(map[(1, 1) := y]));
    Overlapping(s, sheet, first, second, x, y);
  }

  // An operation that writes one text into one cell whatever it finds.
  ghost predicate Stamps(tool: Tool, key: nat, sheet: Id, text: string) {
    && tool.WriteCells? && tool.key == key && tool.sheet == sheet && tool.area == {(1, 1)}
    && forall t :: tool.rewrite(t) == Some(map[(1, 1) := text])
  }

  lemma StampRuns(s: Store, tool: Tool, key: nat, sheet: Id, text: string)
    requires s.WellFormed() && Stamps(tool, key, sheet, text) && sheet in s.sheets
    ensures RunTool(s, tool).Some? && Rewritten(s, tool) == Some(map[(1, 1) := text])
    ensures var s1 := RunTool(s, tool).value.0;
            && s1.WellFormed() && s1.objects == s.objects && s1.sheets == s.sheets && s1.done.Keys == s.done.Keys + {Key(key, Own)}
            && forall c: Cell :: s1.Get(c) == if Key(key, Own) !in s.done && c == Cell(sheet, 1, 1) then text else s.Get(c)
  {
    hide RunTool, Store.WellFormed, Store.WriteOnce, Store.Get;
    assert (map p | p in map[(1, 1) := text] && p in tool.area :: map[(1, 1) := text][p]) == map[(1, 1) := text];
    WriteRuns(s, tool);
    SheetsAreOld(s);
    OnceFacts(s, Key(key, Own), sheet, map[(1, 1) := text]);
  }

  lemma Overlapping(s: Store, sheet: Id, first: Tool, second: Tool, x: string, y: string)
    requires s.WellFormed() && sheet in s.sheets && s.Get(Cell(sheet, 1, 1)) != x
    requires forall key, part :: Key(key, part) !in s.keyed && Key(key, part) !in s.done
    requires Stamps(first, 0, sheet, x) && Stamps(second, 1, sheet, y)
    ensures var tools, runs := [first, second], [[Fine, Breaks(Before)]];
            && Tried(s, tools, runs) && Reached(s, tools, runs) == 1 && Changes(s, first)
            && Effective(s, tools, Settled(s, tools, runs))
  {
    hide RunTool, Settled, Store.WellFormed, SameEffect, Store.Get, Tried, Saga.Execute, Reached, Changes, Updates;
    var tools, runs := [first, second], [[Fine, Breaks(Before)]];
    assert tools[1..] == [second] && [second][1..] == [];
    StampedFails(s, first, second, sheet, x, y);
    var u := Settled(s, tools, runs);
    TriedFacts(s, tools, runs);
    FirstText(first, second);
    StampedTwice(s, first, second, sheet, x, y);
    StampedTwice(u, first, second, sheet, x, y);
    SameStamps(s, u, After(s, tools).store, After(u, tools).store, sheet, y);
  }

  lemma StampedFails(s: Store, first: Tool, second: Tool, sheet: Id, x: string, y: string)
    requires s.WellFormed() && sheet in s.sheets && s.Get(Cell(sheet, 1, 1)) != x
    requires forall key, part :: Key(key, part) !in s.keyed && Key(key, part) !in s.done
    requires Stamps(first, 0, sheet, x) && Stamps(second, 1, sheet, y)
    ensures var tools, runs := [first, second], [[Fine, Breaks(Before)]];
            Tried(s, tools, runs) && Reached(s, tools, runs) == 1 && Changes(s, first)
  {
    hide RunTool, Store.WellFormed, Broken, Settle, Got;
    var tools, envs := [first, second], [Fine, Breaks(Before)];
    StampedOnce(s, first, second, sheet, x);
    assert [envs][1..] == [];
    StampsAdmitted(s, first, second, sheet, x, y);
    StampRuns(s, first, 0, sheet, x);
    assert (1, 1) in map[(1, 1) := x];
    assert !SaysNothingNew(s, sheet, map[(1, 1) := x]);
  }

  lemma StampedOnce(s: Store, first: Tool, second: Tool, sheet: Id, x: string)
    requires s.WellFormed() && Stamps(first, 0, sheet, x) && sheet in s.sheets
    ensures Got(s, [first, second], [Fine, Breaks(Before)]) == 1
  {
    hide RunTool, Store.WellFormed, Stamps;
    var tools, envs := [first, second], [Fine, Breaks(Before)];
    StampRuns(s, first, 0, sheet, x);
    var s1 := RunTool(s, first).value.0;
    assert tools[1..] == [second] && envs[1..] == [Breaks(Before)];
    assert Got(s1, [second], [Breaks(Before)]) == 0;
  }

  lemma StampsAdmitted(s: Store, first: Tool, second: Tool, sheet: Id, x: string, y: string)
    requires sheet in s.sheets && Stamps(first, 0, sheet, x) && Stamps(second, 1, sheet, y)
    requires forall key, part :: Key(key, part) !in s.keyed && Key(key, part) !in s.done
    ensures Admitted(s, [first, second]) && Unused(s, [first, second])
  {
  }

  lemma FirstText(first: Tool, second: Tool)
    requires WritesText(first)
    ensures Texts([first, second][..1]) == {TextKey(first)}
  {
    assert [first, second][..1] == [first];
  }

  lemma StampedTwice(s: Store, first: Tool, second: Tool, sheet: Id, x: string, y: string)
    requires s.WellFormed() && sheet in s.sheets && Stamps(first, 0, sheet, x) && Stamps(second, 1, sheet, y) && Key(1, Own) !in s.done
    ensures var run := After(s, [first, second]);
            && run.ok && run.store.objects == s.objects && run.store.sheets == s.sheets
            && forall c: Cell :: run.store.Get(c) == if c == Cell(sheet, 1, 1) then y else s.Get(c)
  {
    hide RunTool, Saga.Execute, Stamps, Store.WellFormed, Store.Get;
    var tools := [first, second];
    assert tools[1..] == [second] && [second][1..] == [];
    StampRuns(s, first, 0, sheet, x);
    var s1 := RunTool(s, first).value.0;
    StampRuns(s1, second, 1, sheet, y);
    AfterFirst(s, tools);
    AfterFirst(s1, [second]);
    Nothing(RunTool(s1, second).value.0);
  }

  lemma SameStamps(s: Store, u: Store, a: Store, b: Store, sheet: Id, y: string)
    requires Same(s, u) && a.objects == s.objects && a.sheets == s.sheets && b.objects == u.objects && b.sheets == u.sheets
    requires forall c: Cell :: a.Get(c) == if c == Cell(sheet, 1, 1) then y else s.Get(c)
    requires forall c: Cell :: b.Get(c) == if c == Cell(sheet, 1, 1) then y else u.Get(c)
    ensures SameEffect(s.nextId, a, b)
  {
    hide Store.Get;
    assert Same(a, b);
    SameLooksAlike(s.nextId, a, b);
  }
}
