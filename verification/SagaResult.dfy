/**
  What a plan that went through leaves in the workbook: every object, chart, report
  and cell its calls ask for, and everything else as it was.
*/
module SagaResult {
  import opened CellAddress
  import opened Saga
  import opened SagaRetry
  import opened SagaLockstep
  import opened SagaAgain
  import opened SagaApart

  // The object, the chart or the report the call asks for.
  ghost predicate Leaves(s: Store, t: Store, tool: Tool) {
    match tool
    case CreateObject(_, kind, content, sheet) => exists id :: IsNew(s, t, id, Object(kind, content, 1, sheet))
    case UpdateChart(_, chart, _, content) =>
      && chart in s.objects && chart in t.objects
      && t.objects[chart] == s.objects[chart].(content := content, revision := s.objects[chart].revision + 1)
    case CreateReport(_, name, text, graph) => exists id :: ReportStands(s, t, id, name, text, graph)
    case WriteCells(_, _, _, _) => true
  }

  predicate IsNew(s: Store, t: Store, id: Id, item: Object) { s.nextId <= id && id in t.objects && t.objects[id] == item }

  // A new sheet of that name with that text and nothing else, and its chart.
  ghost predicate ReportStands(s: Store, t: Store, id: Id, name: string, text: Text, graph: Option<string>) {
    && s.nextId <= id && id in t.sheets && t.sheets[id] == name
    && (forall row, column :: t.Get(Cell(id, row, column)) == if (row, column) in text then text[(row, column)] else "")
    && (graph.Some? ==> exists g :: IsNew(s, t, g, Object(Chart, graph.value, 1, id)))
  }

  // -------- the call itself --------

  lemma ToolLeaves(s: Store, tool: Tool)
    requires s.WellFormed() && RunTool(s, tool).Some? && Unused(s, [tool])
    ensures Leaves(s, RunTool(s, tool).value.0, tool)
  {
    hide Store.Get, Store.Write, Store.WellFormed, Store.WriteOnce, ReportStands;
    assert tool in [tool];
    match tool {
      case CreateObject(_, kind, content, sheet) => assert IsNew(s, RunTool(s, tool).value.0, s.nextId, Object(kind, content, 1, sheet));
      case CreateReport(_, name, text, graph) => ReportLeaves(s, tool);
      case _ =>
    }
  }

  lemma ReportLeaves(s: Store, tool: Tool)
    requires s.WellFormed() && tool.CreateReport? && RunTool(s, tool).Some? && Unused(s, [tool])
    ensures ReportStands(s, RunTool(s, tool).value.0, s.nextId, tool.name, tool.text, tool.graph)
  {
    hide Store.Get, RunTool, Store.WellFormed, Store.WriteOnce;
    assert tool in [tool];
    var s1 := RunTool(s, tool).value.0;
    forall row, column ensures s1.Get(Cell(s.nextId, row, column)) == if (row, column) in tool.text then tool.text[(row, column)] else "" {
      ReportCell(s, tool, Cell(s.nextId, row, column));
    }
    ReportCell(s, tool, Cell(s.nextId, 0, 0));
    if tool.graph.Some? { ReportGraphIs(s, tool); }
  }

  lemma ReportGraphIs(s: Store, tool: Tool)
    requires s.WellFormed() && tool.CreateReport? && RunTool(s, tool).Some? && tool.graph.Some?
    ensures exists g :: IsNew(s, RunTool(s, tool).value.0, g, Object(Chart, tool.graph.value, 1, s.nextId))
  {
    hide RunTool, Store.WriteOnce, Placed, Store.WellFormed, Store.Get;
    ReportRuns(s, tool);
    ReportShape(s, tool);
    var w := WriteReport(s, tool);
    assert IsNew(s, RunTool(s, tool).value.0, w.nextId, Object(Chart, tool.graph.value, 1, s.nextId));
  }

  // -------- the calls after it --------

  lemma {:induction false} ObjectsStay(s: Store, tools: seq<Tool>, id: Id)
    requires s.WellFormed() && After(s, tools).ok && id in s.objects && forall t :: t in tools && t.UpdateChart? ==> t.chart != id
    ensures var t := After(s, tools).store; id in t.objects && t.objects[id] == s.objects[id]
    decreases |tools|
  {
    hide RunTool, Saga.Execute, Store.WellFormed;
    if tools == [] {
      Nothing(s);
    } else {
      AfterStep(s, tools);
      assert tools[0] in tools;
      RunToolAdds(s, tools[0]);
      RunToolKeepsShape(s, tools[0]);
      assert forall t :: t in tools[1..] ==> t in tools;
      ObjectsStay(RunTool(s, tools[0]).value.0, tools[1..], id);
    }
  }

  // The plan's updates name old charts, and each its own.
  lemma UpdatesElsewhere(s: Store, tools: seq<Tool>)
    requires s.WellFormed() && tools != [] && Admitted(s, tools)
    ensures forall t :: t in tools[1..] && t.UpdateChart? ==> t.chart < s.nextId && !(tools[0].UpdateChart? && tools[0].chart == t.chart)
  {
    forall t | t in tools[1..] && t.UpdateChart? ensures t.chart < s.nextId && !(tools[0].UpdateChart? && tools[0].chart == t.chart) {
      var i :| 0 <= i < |tools| - 1 && tools[1..][i] == t;
      assert tools[i + 1] == t && t in tools;
    }
  }

  // What the first call left stays to the end.
  lemma FirstStays(s: Store, tools: seq<Tool>)
    requires s.WellFormed() && tools != [] && Admitted(s, tools) && Unused(s, tools) && After(s, tools).ok
    requires RunTool(s, tools[0]).Some? && Leaves(s, RunTool(s, tools[0]).value.0, tools[0])
    ensures Leaves(s, After(s, tools).store, tools[0])
  {
    hide RunTool, Saga.Execute, Store.WellFormed, Admitted, Unused, Store.Get, ReportStands;
    AfterStep(s, tools);
    var s1, rest := RunTool(s, tools[0]).value.0, tools[1..];
    RunToolKeepsShape(s, tools[0]);
    UpdatesElsewhere(s, tools);
    match tools[0] {
      case CreateObject(_, kind, content, sheet) =>
        var id :| IsNew(s, s1, id, Object(kind, content, 1, sheet));
        ObjectsStay(s1, rest, id);
        assert IsNew(s, After(s, tools).store, id, Object(kind, content, 1, sheet));
      case UpdateChart(_, chart, _, _) => ObjectsStay(s1, rest, chart);
      case CreateReport(_, name, text, graph) =>
        var id :| ReportStands(s, s1, id, name, text, graph);
        PlanIsOld(s, tools);
        RunToolAdds(s, tools[0]);
        ReportStays(s, s1, rest, id, name, text, graph);
      case _ =>
    }
  }

  lemma ReportStays(s: Store, s1: Store, tools: seq<Tool>, id: Id, name: string, text: Text, graph: Option<string>)
    requires s1.WellFormed() && s.nextId <= s1.nextId && AllOld(s.nextId, tools) && After(s1, tools).ok
    requires ReportStands(s, s1, id, name, text, graph) && forall t :: t in tools && t.UpdateChart? ==> t.chart < s.nextId
    ensures ReportStands(s, After(s1, tools).store, id, name, text, graph)
  {
    hide RunTool, Saga.Execute, Store.WellFormed, Store.Get;
    SheetsStay(s1, tools, id);
    SheetsAreOld(s1);
    forall row, column ensures After(s1, tools).store.Get(Cell(id, row, column)) == s1.Get(Cell(id, row, column)) {
      NewSheetUntouched(s.nextId, tools, Cell(id, row, column));
      CellStays(s1, tools, Cell(id, row, column));
    }
    if graph.Some? {
      var g :| IsNew(s, s1, g, Object(Chart, graph.value, 1, id));
      ObjectsStay(s1, tools, g);
      assert IsNew(s, After(s1, tools).store, g, Object(Chart, graph.value, 1, id));
    }
  }

  // Seen from before the first call.
  lemma SeenFromStart(s: Store, tools: seq<Tool>, t: Store, tool: Tool)
    requires s.WellFormed() && tools != [] && Admitted(s, tools) && RunTool(s, tools[0]).Some? && tool in tools[1..]
    requires Leaves(RunTool(s, tools[0]).value.0, t, tool)
    ensures Leaves(s, t, tool)
  {
    hide RunTool, Store.WellFormed, Store.Get, Admitted;
    var s1 := RunTool(s, tools[0]).value.0;
    RunToolAdds(s, tools[0]);
    UpdatesElsewhere(s, tools);
    match tool {
      case CreateObject(_, kind, content, sheet) =>
        var id :| IsNew(s1, t, id, Object(kind, content, 1, sheet));
        assert IsNew(s, t, id, Object(kind, content, 1, sheet));
      case UpdateChart(_, chart, _, _) => ChartIsOld(s, tools, tool);
      case CreateReport(_, name, text, graph) =>
        var id :| ReportStands(s1, t, id, name, text, graph);
        if graph.Some? {
          var g :| IsNew(s1, t, g, Object(Chart, graph.value, 1, id));
          assert IsNew(s, t, g, Object(Chart, graph.value, 1, id));
        }
        assert ReportStands(s, t, id, name, text, graph);
      case _ =>
    }
  }

  lemma ChartIsOld(s: Store, tools: seq<Tool>, tool: Tool)
    requires tools != [] && Admitted(s, tools) && tool in tools[1..] && tool.UpdateChart?
    ensures tool.chart in s.objects
  {
    assert tool in tools;
  }

  // A plan that went through leaves what each of its calls asks for.
  lemma {:induction false} RunLeaves(s: Store, tools: seq<Tool>, i: nat)
    requires s.WellFormed() && Admitted(s, tools) && Unused(s, tools) && After(s, tools).ok && i < |tools|
    ensures Leaves(s, After(s, tools).store, tools[i])
    decreases |tools|
  {
    hide RunTool, Saga.Execute, Store.WellFormed, Admitted, Unused, Leaves;
    AfterStep(s, tools);
    if i == 0 {
      UnusedOne(s, tools);
      ToolLeaves(s, tools[0]);
      FirstStays(s, tools);
    } else {
      RunToolKeepsShape(s, tools[0]);
      AdmittedRest(s, tools);
      RunLeaves(RunTool(s, tools[0]).value.0, tools[1..], i - 1);
      assert tools[1..][i - 1] == tools[i] && tools[i] in tools[1..];
      SeenFromStart(s, tools, After(s, tools).store, tools[i]);
    }
  }

  // -------- cells --------

  // What an area holds, empty places left out.
  ghost predicate Holds(s: Store, sheet: Id, area: set<Place>, held: Text) {
    forall p :: (p in held <==> p in area && s.Get(Cell(sheet, p.0, p.1)) != "") && (p in held ==> held[p] == s.Get(Cell(sheet, p.0, p.1)))
  }

  // A cell operation writes, within its area, what it computes from what the area
  // holds at its turn; a cell no later call writes keeps that to the end.
  lemma {:induction false} CellsWritten(s: Store, tools: seq<Tool>, i: nat, held: Text, p: Place)
    requires s.WellFormed() && Admitted(s, tools) && Unused(s, tools) && After(s, tools).ok && i < |tools| && tools[i].WriteCells?
    requires After(s, tools[..i]).ok && Holds(After(s, tools[..i]).store, tools[i].sheet, tools[i].area, held)
    requires forall j :: i < j < |tools| ==> !WritesAt(tools[j], Cell(tools[i].sheet, p.0, p.1))
    ensures tools[i].rewrite(held).Some?
    ensures p in tools[i].area && p in tools[i].rewrite(held).value ==>
              After(s, tools).store.Get(Cell(tools[i].sheet, p.0, p.1)) == tools[i].rewrite(held).value[p]
    decreases i
  {
    hide RunTool, Saga.Execute, Store.WellFormed, Admitted, Unused, Store.Get, WritesAt;
    AfterStep(s, tools);
    RunToolKeepsShape(s, tools[0]);
    AdmittedRest(s, tools);
    if i == 0 {
      assert tools[..0] == [];
      Nothing(s);
      UnusedOne(s, tools);
      WriteNow(s, tools, held, p);
    } else {
      var s1, rest := RunTool(s, tools[0]).value.0, tools[1..];
      assert rest[..i - 1] == tools[..i][1..] && rest[i - 1] == tools[i] && tools[..i][0] == tools[0];
      AfterStep(s, tools[..i]);
      forall j | i - 1 < j < |rest| ensures !WritesAt(rest[j], Cell(tools[i].sheet, p.0, p.1)) { assert rest[j] == tools[j + 1]; }
      CellsWritten(s1, rest, i - 1, held, p);
    }
  }

  lemma WriteNow(s: Store, tools: seq<Tool>, held: Text, p: Place)
    requires s.WellFormed() && tools != [] && Admitted(s, tools) && Unused(s, [tools[0]]) && tools[0].WriteCells? && After(s, tools).ok
    requires Holds(s, tools[0].sheet, tools[0].area, held)
    requires forall j :: 0 < j < |tools| ==> !WritesAt(tools[j], Cell(tools[0].sheet, p.0, p.1))
    ensures tools[0].rewrite(held).Some?
    ensures p in tools[0].area && p in tools[0].rewrite(held).value ==>
              After(s, tools).store.Get(Cell(tools[0].sheet, p.0, p.1)) == tools[0].rewrite(held).value[p]
  {
    hide RunTool, Saga.Execute, Store.WellFormed, Store.Get, WritesAt, Admitted;
    var tool, c := tools[0], Cell(tools[0].sheet, p.0, p.1);
    AfterStep(s, tools);
    assert tool in [tool];
    WriteRuns(s, tool);
    HeldIs(s, tool, held);
    if p in tool.area && p in tool.rewrite(held).value {
      SheetIsOld(s, tools);
      WritesThere(s, tool, held, p);
      RunToolKeepsShape(s, tool);
      RunToolAdds(s, tool);
      NoLaterWrite(tools, c);
      CellStays(RunTool(s, tool).value.0, tools[1..], c);
    }
  }

  lemma NoLaterWrite(tools: seq<Tool>, c: Cell)
    requires tools != [] && forall j :: 0 < j < |tools| ==> !WritesAt(tools[j], c)
    ensures forall t :: t in tools[1..] ==> !WritesAt(t, c)
  {
    hide WritesAt;
    assert forall j :: 0 <= j < |tools| - 1 ==> tools[1..][j] == tools[j + 1];
  }

  lemma SheetIsOld(s: Store, tools: seq<Tool>)
    requires s.WellFormed() && tools != [] && Admitted(s, tools) && tools[0].WriteCells?
    ensures tools[0].sheet < s.nextId
  {
    assert tools[0] in tools;
  }

  lemma HeldIs(s: Store, tool: Tool, held: Text)
    requires tool.WriteCells? && Holds(s, tool.sheet, tool.area, held)
    ensures held == Contents(s, tool.sheet, tool.area)
    ensures Rewritten(s, tool).Some? <==> tool.rewrite(held).Some?
    ensures Rewritten(s, tool).Some? ==>
              forall p :: (p in Rewritten(s, tool).value <==> p in tool.area && p in tool.rewrite(held).value)
                          && (p in Rewritten(s, tool).value ==> Rewritten(s, tool).value[p] == tool.rewrite(held).value[p])
  {
    hide Store.Get;
    assert held == Contents(s, tool.sheet, tool.area);
  }

  lemma WritesThere(s: Store, tool: Tool, held: Text, p: Place)
    requires s.WellFormed() && tool.WriteCells? && RunTool(s, tool).Some? && Unused(s, [tool]) && tool.sheet < s.nextId
    requires Holds(s, tool.sheet, tool.area, held) && tool.rewrite(held).Some? && p in tool.area && p in tool.rewrite(held).value
    ensures RunTool(s, tool).value.0.Get(Cell(tool.sheet, p.0, p.1)) == tool.rewrite(held).value[p]
  {
    hide RunTool, Store.WellFormed, Store.Get;
    assert tool in [tool];
    HeldIs(s, tool, held);
    WriteRuns(s, tool);
    assert WritesAt(tool, Cell(tool.sheet, p.0, p.1));
    ToolCell(s, tool, Cell(tool.sheet, p.0, p.1));
  }

  // -------- everything else --------

  // A chart no call updates, any other object, every sheet, and every cell in no
  // call's area are as they were.
  lemma OthersStay(s: Store, tools: seq<Tool>)
    requires s.WellFormed() && Admitted(s, tools) && After(s, tools).ok
    ensures var t := After(s, tools).store;
            && (forall id :: id in s.objects && id !in UpdateIds(tools) ==> id in t.objects && t.objects[id] == s.objects[id])
            && (forall id :: id in s.sheets ==> id in t.sheets && t.sheets[id] == s.sheets[id])
            && (forall c: Cell :: c.sheet < s.nextId && (forall tool :: tool in tools ==> !WritesAt(tool, c)) ==> t.Get(c) == s.Get(c))
  {
    hide RunTool, Saga.Execute, Store.WellFormed, Admitted, Store.Get, WritesAt;
    var t := After(s, tools).store;
    forall id | id in s.objects && id !in UpdateIds(tools) ensures id in t.objects && t.objects[id] == s.objects[id] { ObjectsStay(s, tools, id); }
    forall id | id in s.sheets ensures id in t.sheets && t.sheets[id] == s.sheets[id] { SheetsStay(s, tools, id); }
    forall c: Cell | c.sheet < s.nextId && (forall tool :: tool in tools ==> !WritesAt(tool, c)) ensures t.Get(c) == s.Get(c) {
      CellStays(s, tools, c);
    }
  }

  // -------- what is accepted --------

  // A call that has not been made is accepted exactly when its sheet is there, its
  // chart is a chart at the revision it names, its name is free, or its rewriting of
  // what the area holds is not refused.
  lemma AcceptedIff(s: Store, tool: Tool, held: Text)
    requires Unused(s, [tool]) && (tool.WriteCells? ==> Holds(s, tool.sheet, tool.area, held))
    ensures RunTool(s, tool).Some?
       <==> match tool
            case CreateObject(_, _, _, sheet) => sheet in s.sheets
            case UpdateChart(_, chart, expected, _) => chart in s.objects && s.objects[chart].kind.Chart? && s.objects[chart].revision == expected
            case CreateReport(_, name, _, _) => forall id :: id in s.sheets ==> s.sheets[id] != name
            case WriteCells(_, sheet, _, rewrite) => sheet in s.sheets && rewrite(held).Some?
  {
    hide Store.Get, WriteReport, Store.WriteOnce;
    assert tool in [tool];
    if tool.WriteCells? {
      HeldIs(s, tool, held);
      WriteRuns(s, tool);
    }
  }
}
