/**
  An error reported after the store had committed: the call is not noted as
  completed, so compensation does not undo it.  What is left of it, for every kind
  of call.
*/
module SagaLeak {
  import opened CellAddress
  import opened Saga
  import opened SagaRetry

  // The first k calls went through and the next one broke after its commit.
  ghost predicate BreaksLate(s: Store, tools: seq<Tool>, k: nat, envs: seq<Env>) {
    && s.WellFormed() && k < |tools| == |envs| && Admitted(s, tools) && Unused(s, tools) && After(s, tools[..k]).ok
    && envs == AllFine(k) + [Breaks(AfterCommit)] + envs[k + 1..]
  }

  // The run ends at the call that broke, and that call is not noted.
  lemma BreaksAt(s: Store, tools: seq<Tool>, k: nat, envs: seq<Env>)
    requires k < |tools| == |envs| && After(s, tools[..k]).ok
    requires envs == AllFine(k) + [Breaks(AfterCommit)] + envs[k + 1..]
    ensures var first := After(s, tools[..k]);
            Execute(s, tools, envs) == Run(Broken(first.store, tools[k], AfterCommit), first.dones, false)
  {
    hide Saga.Execute, RunTool, Broken;
    var first := After(s, tools[..k]);
    InTwoParts(s, tools, k, envs[k..]);
    assert AllFine(k) + envs[k..] == envs;
    OneBreak(first.store, tools[k..], envs[k..]);
    assert first.dones + [] == first.dones;
  }

  lemma OneBreak(t: Store, tools: seq<Tool>, envs: seq<Env>)
    requires |tools| == |envs| && tools != [] && envs[0] == Breaks(AfterCommit)
    ensures Execute(t, tools, envs) == Run(Broken(t, tools[0], AfterCommit), [], false)
  {
  }

  lemma {:induction false} UnusedLater(s: Store, tools: seq<Tool>, k: nat)
    requires s.WellFormed() && k < |tools| && Admitted(s, tools) && Unused(s, tools) && After(s, tools[..k]).ok
    ensures Unused(After(s, tools[..k]).store, [tools[k]])
    decreases k
  {
    hide Saga.Execute, RunTool, Store.WellFormed, Admitted;
    if k == 0 {
      assert tools[..0] == [];
      Nothing(s);
      assert tools[0] in tools;
    } else {
      assert tools[..k][0] == tools[0] && tools[..k][1..] == tools[1..][..k - 1];
      AfterStep(s, tools[..k]);
      RunToolKeepsShape(s, tools[0]);
      AdmittedRest(s, tools);
      UnusedLater(RunTool(s, tools[0]).value.0, tools[1..], k - 1);
    }
  }

  // What the completed calls made lies in t and is new, and what they updated is old.
  ghost predicate Known(s: Store, t: Store, dones: seq<Done>) {
    && s.nextId <= t.nextId
    && forall d :: d in dones ==>
                     && (d.Created? ==> s.nextId <= d.item < t.nextId) && (d.Updated? ==> d.chart < s.nextId)
                     && (d.Reported? ==> s.nextId <= d.sheet < t.nextId)
  }

  lemma KnownDones(s: Store, tools: seq<Tool>)
    requires s.WellFormed() && Admitted(s, tools) && Unused(s, tools) && After(s, tools).ok
    ensures Known(s, After(s, tools).store, After(s, tools).dones)
  {
    hide Saga.Execute, Unused, RunTool;
    var t, dones := After(s, tools).store, After(s, tools).dones;
    AllLeftAfter(s, tools);
    RunKeeps(s, tools);
    forall d | d in dones
      ensures (d.Created? ==> s.nextId <= d.item < t.nextId) && (d.Updated? ==> d.chart < s.nextId)
              && (d.Reported? ==> s.nextId <= d.sheet < t.nextId)
    {
      var i :| 0 <= i < |dones| && dones[i] == d;
      assert Left(s, t, tools[i], d) && tools[i] in tools;
    }
  }

  // -------- objects and sheets no completed call stands for --------

  // Undoing leaves alone an object that no completed call made or updated.
  lemma {:induction false} UndoSpares(t: Store, dones: seq<Done>, id: Id)
    requires id in t.objects
    requires forall d :: d in dones ==>
                           (d.Created? ==> d.item != id) && (d.Reported? ==> d.sheet != t.objects[id].sheet) && (d.Updated? ==> d.chart != id)
    ensures var u := UndoAll(t, dones).store; id in u.objects && u.objects[id] == t.objects[id]
    decreases |dones|
  {
    hide UndoTool;
    if dones != [] {
      var last, front := dones[|dones| - 1], dones[..|dones| - 1];
      assert last in dones && forall d :: d in front ==> d in dones;
      if UndoTool(t, last).Some? {
        UndoOneSpares(t, last, id);
        UndoSpares(UndoTool(t, last).value, front, id);
      }
    }
  }

  lemma UndoOneSpares(t: Store, d: Done, id: Id)
    requires id in t.objects && UndoTool(t, d).Some?
    requires (d.Created? ==> d.item != id) && (d.Reported? ==> d.sheet != t.objects[id].sheet) && (d.Updated? ==> d.chart != id)
    ensures var r := UndoTool(t, d).value; id in r.objects && r.objects[id] == t.objects[id]
  {
  }

  // The same for sheets.
  lemma {:induction false} UndoSparesSheet(t: Store, dones: seq<Done>, sheet: Id)
    requires sheet in t.sheets && forall d :: d in dones && d.Reported? ==> d.sheet != sheet
    ensures sheet in UndoAll(t, dones).store.sheets
    decreases |dones|
  {
    hide UndoTool;
    if dones != [] {
      var last, front := dones[|dones| - 1], dones[..|dones| - 1];
      assert last in dones && forall d :: d in front ==> d in dones;
      if UndoTool(t, last).Some? {
        UndoOneSparesSheet(t, last, sheet);
        UndoSparesSheet(UndoTool(t, last).value, front, sheet);
      }
    }
  }

  lemma UndoOneSparesSheet(t: Store, d: Done, sheet: Id)
    requires sheet in t.sheets && UndoTool(t, d).Some? && (d.Reported? ==> d.sheet != sheet)
    ensures sheet in UndoTool(t, d).value.sheets
  {
  }

  lemma ObjectLeaks(s: Store, t: Store, tool: Tool, dones: seq<Done>)
    requires s.WellFormed() && Known(s, t, dones) && tool.CreateObject? && RunTool(t, tool).Some?
    requires Unused(t, [tool]) && tool.sheet < s.nextId
    ensures !Same(s, UndoAll(RunTool(t, tool).value.0, dones).store)
  {
    hide UndoAll;
    assert tool in [tool];
    UndoSpares(RunTool(t, tool).value.0, dones, t.nextId);
  }

  lemma UpdateLeaks(s: Store, t: Store, tool: Tool, dones: seq<Done>)
    requires s.WellFormed() && Known(s, t, dones) && tool.UpdateChart? && RunTool(t, tool).Some?
    requires tool.chart in s.objects && tool.content != s.objects[tool.chart].content && t.objects[tool.chart] == s.objects[tool.chart]
    requires forall d :: d in dones && d.Updated? ==> d.chart != tool.chart
    ensures !Same(s, UndoAll(RunTool(t, tool).value.0, dones).store)
  {
    hide UndoAll;
    UndoSpares(RunTool(t, tool).value.0, dones, tool.chart);
  }

  lemma SheetLeaks(s: Store, t: Store, name: string, dones: seq<Done>)
    requires s.WellFormed() && Known(s, t, dones)
    ensures !Same(s, UndoAll(AddSheet(t, name), dones).store)
  {
    hide UndoAll;
    UndoSparesSheet(AddSheet(t, name), dones, t.nextId);
  }

  // A creation, an update or a report that broke after its commit is left behind;
  // the workbook is restored if and only if the store had refused the call.
  lemma ThingLeaks(s: Store, tools: seq<Tool>, k: nat, envs: seq<Env>)
    requires BreaksLate(s, tools, k, envs) && !tools[k].WriteCells?
    ensures var run := Execute(s, tools, envs);
            Same(s, UndoAll(run.store, run.dones).store) <==> RunTool(After(s, tools[..k]).store, tools[k]).None?
  {
    hide Saga.Execute, UndoAll, Same, RunTool, Broken, Store.WellFormed, Known, Unused;
    var first, tool := After(s, tools[..k]), tools[k];
    BreaksAt(s, tools, k, envs);
    PrefixAdmitted(s, tools, k);
    KnownDones(s, tools[..k]);
    BrokenLate(first.store, tool);
    assert tool in tools;
    if RunTool(first.store, tool).None? {
      NoLeakFine(k);
      UnusedIsReady(s, tools[..k]);
      CompensationRestores(s, tools[..k], AllFine(k));
    } else {
      match tool {
        case CreateObject(_, _, _, sheet) =>
          UnusedLater(s, tools, k);
          SheetsAreOld(s);
          ObjectLeaks(s, first.store, tool, first.dones);
        case UpdateChart(_, _, _, _) =>
          UpdatedOnce(s, tools, k);
          UpdateLeaks(s, first.store, tool, first.dones);
        case CreateReport(_, name, _, _) => SheetLeaks(s, first.store, name, first.dones);
      }
    }
  }

  lemma BrokenLate(t: Store, tool: Tool)
    ensures RunTool(t, tool).None? ==> Broken(t, tool, AfterCommit) == t
    ensures RunTool(t, tool).Some? ==>
              Broken(t, tool, AfterCommit) == if tool.CreateReport? then AddSheet(t, tool.name) else RunTool(t, tool).value.0
  {
    hide WriteReport, Writes;
  }

  // The chart of an update is as it was until the update comes.
  lemma UpdatedOnce(s: Store, tools: seq<Tool>, k: nat)
    requires s.WellFormed() && k < |tools| && Admitted(s, tools) && Unused(s, tools) && After(s, tools[..k]).ok && tools[k].UpdateChart?
    ensures var first := After(s, tools[..k]);
            && tools[k].chart in first.store.objects && first.store.objects[tools[k].chart] == s.objects[tools[k].chart]
            && forall d :: d in first.dones && d.Updated? ==> d.chart != tools[k].chart
  {
    hide Saga.Execute, Unused, RunTool;
    PrefixAdmitted(s, tools, k);
    RunKeeps(s, tools[..k]);
    AllLeftAfter(s, tools[..k]);
    var first, chart := After(s, tools[..k]), tools[k].chart;
    assert tools[k] in tools;
    forall t | t in tools[..k] && t.UpdateChart? ensures t.chart != chart {
      var i :| 0 <= i < k && tools[i] == t;
    }
    forall d | d in first.dones && d.Updated? ensures d.chart != chart {
      var i :| 0 <= i < |first.dones| && first.dones[i] == d;
      assert Left(s, first.store, tools[..k][i], d);
      assert tools[..k][i] == tools[i];
    }
  }

  // -------- cells --------

  // The cell holds the text somewhere along the run.
  ghost predicate Held(s: Store, tools: seq<Tool>, c: Cell, v: string)
    decreases |tools|
  {
    || s.Get(c) == v
    || (tools != [] && RunTool(s, tools[0]).Some? && Held(RunTool(s, tools[0]).value.0, tools[1..], c, v))
  }

  // Every operation of s is in x as it is in s, undone or not.
  ghost predicate Retains(s: Store, x: Store) {
    forall op :: op in s.operations ==>
                   op < x.nextId && op in x.operations && x.operations[op] == s.operations[op] && (op in x.undone <==> op in s.undone)
  }

  // Undoing a run on a store where a cell holds v takes the cell back to where it
  // was if it ever held v on the way, and leaves it alone otherwise.
  lemma {:induction false} CellGoesBack(s: Store, tools: seq<Tool>, x: Store, c: Cell)
    requires s.WellFormed() && Admitted(s, tools) && Unused(s, tools) && After(s, tools).ok && c.sheet < s.nextId
    requires Retains(After(s, tools).store, x) && UndoAll(x, After(s, tools).dones).ok
    ensures var u := UndoAll(x, After(s, tools).dones).store;
            && Retains(s, u)
            && u.Get(c) == if Held(s, tools, c, x.Get(c)) then s.Get(c) else x.Get(c)
    decreases |tools|
  {
    hide Saga.Execute, RunTool, UndoTool, Store.WellFormed, Admitted, Unused, Retains, Store.Get;
    if tools == [] {
      Nothing(s);
    } else {
      AfterStep(s, tools);
      var (s1, d) := RunTool(s, tools[0]).value;
      var rest := After(s1, tools[1..]).dones;
      UndoAllFirst(x, d, rest);
      RunToolKeepsShape(s, tools[0]);
      RunToolAdds(s, tools[0]);
      AdmittedRest(s, tools);
      UnusedOne(s, tools);
      CellGoesBack(s1, tools[1..], x, c);
      OneCellBack(s, tools[0], UndoAll(x, rest).store, c);
    }
  }

  // One call undone on a store that retains what it did.
  lemma OneCellBack(s: Store, tool: Tool, y: Store, c: Cell)
    requires s.WellFormed() && RunTool(s, tool).Some? && Unused(s, [tool]) && c.sheet < s.nextId
    requires Retains(RunTool(s, tool).value.0, y) && UndoTool(y, RunTool(s, tool).value.1).Some?
    ensures var s1, z := RunTool(s, tool).value.0, UndoTool(y, RunTool(s, tool).value.1).value;
            && Retains(s, z)
            && (y.Get(c) == s1.Get(c) ==> z.Get(c) == s.Get(c))
            && (y.Get(c) != s1.Get(c) ==> z.Get(c) == y.Get(c))
  {
    hide Store.WellFormed, Store.Get, Store.Write, Writes, UndoTool, Retains, RunTool;
    if tool.WriteCells? {
      WriteIs(s, tool);
      WriteCellBack(s, Writes(s, tool).value, tool.key, y, c);
    } else {
      OtherIs(s, tool, c);
      OtherCellBack(s, RunTool(s, tool).value.0, RunTool(s, tool).value.1, y, c);
    }
  }

  lemma WriteIs(s: Store, tool: Tool)
    requires tool.WriteCells? && RunTool(s, tool).Some? && Unused(s, [tool])
    ensures Writes(s, tool).Some?
    ensures RunTool(s, tool).value
         == (s.Write(Writes(s, tool).value).(done := s.done[Key(tool.key, Own) := s.nextId]), Wrote(s.nextId))
  {
    hide Writes, Store.Write;
    assert tool in [tool];
  }

  lemma WriteCellBack(s: Store, writes: map<Cell, string>, key: nat, y: Store, c: Cell)
    requires s.WellFormed() && Retains(s.Write(writes).(done := s.done[Key(key, Own) := s.nextId]), y)
    ensures var s1, z := s.Write(writes), UndoTool(y, Wrote(s.nextId)).value;
            && UndoTool(y, Wrote(s.nextId)).Some? && Retains(s, z)
            && (y.Get(c) == s1.Get(c) ==> z.Get(c) == s.Get(c))
            && (y.Get(c) != s1.Get(c) ==> z.Get(c) == y.Get(c))
    ensures s.Write(writes).(done := s.done[Key(key, Own) := s.nextId]).Get(c) == s.Write(writes).Get(c)
  {
    hide Store.Write, UndoTool, Store.WellFormed, Retains;
    WriteFacts(s, writes);
    RetainsWrite(s, writes, key, y);
    var op := y.operations[s.nextId];
    var undo := map e | e in op.after && y.Get(e) == op.after[e] :: op.before[e];
    UndoIsWrite(y, s.nextId);
    WriteFacts(y, undo);
    MarkedGet(y.Write(undo), y.undone + {s.nextId}, c);
    RetainsAfter(s, y, undo, s.nextId);
  }

  lemma RetainsWrite(s: Store, writes: map<Cell, string>, key: nat, y: Store)
    requires s.WellFormed() && Retains(s.Write(writes).(done := s.done[Key(key, Own) := s.nextId]), y)
    ensures Retains(s, y) && s.nextId in y.operations && s.nextId !in y.undone && s.nextId !in s.operations
    ensures y.operations[s.nextId].after == writes && y.operations[s.nextId].before == map c | c in writes :: s.Get(c)
  {
    hide Store.Write;
    WriteFacts(s, writes);
  }

  lemma RetainsAfter(s: Store, y: Store, writes: map<Cell, string>, id: Id)
    requires Retains(s, y) && id !in s.operations
    ensures Retains(s, y.Write(writes).(undone := y.undone + {id}))
  {
    hide Store.Write;
    WriteFacts(y, writes);
  }

  lemma MarkedGet(y: Store, undone: set<Id>, c: Cell)
    ensures y.(undone := undone).Get(c) == y.Get(c)
  {
  }

  lemma OtherIs(s: Store, tool: Tool, c: Cell)
    requires s.WellFormed() && !tool.WriteCells? && RunTool(s, tool).Some? && Unused(s, [tool]) && c.sheet < s.nextId
    ensures var (s1, d) := RunTool(s, tool).value;
            && !d.Wrote? && (d.Reported? ==> d.sheet == s.nextId) && s1.Get(c) == s.Get(c) && s1.undone == s.undone
            && forall op :: op in s.operations ==> op in s1.operations && s1.operations[op] == s.operations[op]
  {
    hide Store.WellFormed;
    assert tool in [tool];
    if tool.CreateReport? {
      ReportedIs(s, tool);
      ReportThings(s, tool);
    }
  }

  lemma OtherCellBack(s: Store, s1: Store, d: Done, y: Store, c: Cell)
    requires !d.Wrote? && (d.Reported? ==> d.sheet == s.nextId) && s1.Get(c) == s.Get(c) && s1.undone == s.undone && c.sheet < s.nextId
    requires forall op :: op in s.operations ==> op in s1.operations && s1.operations[op] == s.operations[op]
    requires Retains(s1, y) && UndoTool(y, d).Some?
    ensures Retains(s, UndoTool(y, d).value) && UndoTool(y, d).value.Get(c) == y.Get(c)
  {
    hide Store.Write;
    if d.Reported? && d.sheet in y.sheets { WithoutSheetCells(y, d.sheet); }
  }

  // Undoing treats two stores alike in objects and sheets when they are alike.
  lemma {:induction false} UndoThings(x: Store, y: Store, dones: seq<Done>)
    requires x.objects == y.objects && x.sheets == y.sheets
    ensures var u, v := UndoAll(x, dones), UndoAll(y, dones);
            u.ok == v.ok && u.store.objects == v.store.objects && u.store.sheets == v.store.sheets
    decreases |dones|
  {
    hide UndoTool;
    if dones != [] {
      var last := dones[|dones| - 1];
      UndoOneThing(x, y, last);
      if UndoTool(x, last).Some? { UndoThings(UndoTool(x, last).value, UndoTool(y, last).value, dones[..|dones| - 1]); }
    }
  }

  lemma UndoOneThing(x: Store, y: Store, d: Done)
    requires x.objects == y.objects && x.sheets == y.sheets
    ensures var u, v := UndoTool(x, d), UndoTool(y, d);
            u.Some? == v.Some? && (u.Some? ==> u.value.objects == v.value.objects && u.value.sheets == v.value.sheets)
  {
    hide UndoTool;
    if d.Wrote? {
      UndoWroteThings(x, d.operation);
      UndoWroteThings(y, d.operation);
    } else if d.Reported? {
      SameReportGone(x, y, d.sheet);
    } else {
      SameObjectGone(x, y, d);
    }
  }

  lemma UndoWroteThings(x: Store, op: Id)
    ensures var r := UndoTool(x, Wrote(op)); r.Some? && r.value.objects == x.objects && r.value.sheets == x.sheets
  {
    hide Store.Write;
    if op in x.operations {
      var o := x.operations[op];
      if o.before.Keys == o.after.Keys { WriteFacts(x, map c | c in o.after && x.Get(c) == o.after[c] :: o.before[c]); }
    }
  }

  lemma SameObjectGone(x: Store, y: Store, d: Done)
    requires x.objects == y.objects && x.sheets == y.sheets && (d.Created? || d.Updated?)
    ensures var u, v := UndoTool(x, d), UndoTool(y, d);
            u.Some? == v.Some? && (u.Some? ==> u.value.objects == v.value.objects && u.value.sheets == v.value.sheets)
  {
    hide Store.Keep;
    if d.Created? {
      KeptThings(x, x.objects - {d.item});
      KeptThings(y, x.objects - {d.item});
    }
  }

  lemma SameReportGone(x: Store, y: Store, sheet: Id)
    requires x.objects == y.objects && x.sheets == y.sheets
    ensures var u, v := UndoTool(x, Reported(sheet)), UndoTool(y, Reported(sheet));
            u.Some? == v.Some? && (u.Some? ==> u.value.objects == v.value.objects && u.value.sheets == v.value.sheets)
  {
    hide Store.WithoutSheet;
    SameWithout(x, y, sheet);
  }

  lemma KeptThings(x: Store, kept: map<Id, Object>)
    ensures x.Keep(kept).objects == kept && x.Keep(kept).sheets == x.sheets
  {
  }

  lemma SameWithout(x: Store, y: Store, sheet: Id)
    requires x.objects == y.objects && x.sheets == y.sheets
    ensures x.WithoutSheet(sheet).objects == y.WithoutSheet(sheet).objects && x.WithoutSheet(sheet).sheets == y.WithoutSheet(sheet).sheets
  {
  }

  ghost predicate AlikeAt(s: Store, x: Store, t: Store, c: Cell) {
    Retains(s, x) && Retains(s, t) && x.Get(c) == t.Get(c) && x.sheets == t.sheets && x.objects == t.objects
  }

  // Two stores that retain a run and agree on a cell agree on it after undoing.
  lemma {:induction false} SameCell(s: Store, tools: seq<Tool>, x: Store, t: Store, c: Cell)
    requires s.WellFormed() && Admitted(s, tools) && Unused(s, tools) && After(s, tools).ok
    requires AlikeAt(After(s, tools).store, x, t, c) && UndoAll(x, After(s, tools).dones).ok && UndoAll(t, After(s, tools).dones).ok
    ensures var dones := After(s, tools).dones; AlikeAt(s, UndoAll(x, dones).store, UndoAll(t, dones).store, c)
    decreases |tools|
  {
    hide Saga.Execute, RunTool, UndoTool, Store.WellFormed, Admitted, Unused, Retains, Store.Get;
    if tools == [] {
      Nothing(s);
    } else {
      AfterStep(s, tools);
      var (s1, d) := RunTool(s, tools[0]).value;
      var rest := After(s1, tools[1..]).dones;
      UndoAllFirst(x, d, rest);
      UndoAllFirst(t, d, rest);
      RunToolKeepsShape(s, tools[0]);
      AdmittedRest(s, tools);
      UnusedOne(s, tools);
      SameCell(s1, tools[1..], x, t, c);
      OneSameCell(s, tools[0], UndoAll(x, rest).store, UndoAll(t, rest).store, c);
    }
  }

  lemma OneSameCell(s: Store, tool: Tool, x: Store, t: Store, c: Cell)
    requires s.WellFormed() && RunTool(s, tool).Some? && Unused(s, [tool]) && AlikeAt(RunTool(s, tool).value.0, x, t, c)
    requires var d := RunTool(s, tool).value.1; UndoTool(x, d).Some? && UndoTool(t, d).Some?
    ensures var d := RunTool(s, tool).value.1; AlikeAt(s, UndoTool(x, d).value, UndoTool(t, d).value, c)
  {
    hide RunTool, UndoTool, Store.WellFormed, Retains, Store.Get, Writes;
    var (s1, d) := RunTool(s, tool).value;
    UndoOneThing(x, t, d);
    if tool.WriteCells? {
      WriteIs(s, tool);
      WriteCellBack(s, Writes(s, tool).value, tool.key, x, c);
      WriteCellBack(s, Writes(s, tool).value, tool.key, t, c);
    } else {
      OtherKeepsOps(s, tool);
      OtherSameCell(s, s1, d, x, t, c);
    }
  }

  lemma OtherKeepsOps(s: Store, tool: Tool)
    requires s.WellFormed() && !tool.WriteCells? && RunTool(s, tool).Some? && Unused(s, [tool])
    ensures var (s1, d) := RunTool(s, tool).value;
            && !d.Wrote? && s1.undone == s.undone
            && forall op :: op in s.operations ==> op in s1.operations && s1.operations[op] == s.operations[op]
  {
    hide Store.WellFormed;
    assert tool in [tool];
    if tool.CreateReport? {
      ReportedIs(s, tool);
      ReportThings(s, tool);
    }
  }

  lemma OtherSameCell(s: Store, s1: Store, d: Done, x: Store, t: Store, c: Cell)
    requires !d.Wrote? && s1.undone == s.undone && AlikeAt(s1, x, t, c) && UndoTool(x, d).Some? && UndoTool(t, d).Some?
    requires forall op :: op in s.operations ==> op in s1.operations && s1.operations[op] == s.operations[op]
    ensures AlikeAt(s, UndoTool(x, d).value, UndoTool(t, d).value, c)
  {
    hide UndoTool, Store.Get;
    UndoOneThing(x, t, d);
    OtherKeepsCells(x, d, c);
    OtherKeepsCells(t, d, c);
  }

  // Undoing anything but a cell operation leaves the operations, and of the cells
  // takes those of the sheet it deletes.
  lemma OtherKeepsCells(x: Store, d: Done, c: Cell)
    requires !d.Wrote? && UndoTool(x, d).Some?
    ensures var r := UndoTool(x, d).value;
            && r.operations == x.operations && r.undone == x.undone && r.nextId == x.nextId
            && r.Get(c) == if d.Reported? && d.sheet in x.sheets && c.sheet == d.sheet then "" else x.Get(c)
  {
    if d.Reported? { WithoutSheetCells(x, d.sheet); }
  }

  // A cell operation that broke after its commit is restored if and only if every
  // text it wrote is one that its cell had held before in the run.
  lemma CellsLeak(s: Store, tools: seq<Tool>, k: nat, envs: seq<Env>)
    requires BreaksLate(s, tools, k, envs) && tools[k].WriteCells?
    ensures var t, run := After(s, tools[..k]).store, Execute(s, tools, envs);
            Same(s, UndoAll(run.store, run.dones).store)
            <==> RunTool(t, tools[k]).None?
                 || forall c :: c in Writes(t, tools[k]).value ==> Held(s, tools[..k], c, Writes(t, tools[k]).value[c])
  {
    hide Saga.Execute, UndoAll, Same, RunTool, Broken, Store.WellFormed, Unused, Held, Writes, Admitted;
    var first, tool := After(s, tools[..k]), tools[k];
    BreaksAt(s, tools, k, envs);
    PrefixAdmitted(s, tools, k);
    BrokenLate(first.store, tool);
    NoLeakFine(k);
    UnusedIsReady(s, tools[..k]);
    CompensationRestores(s, tools[..k], AllFine(k));
    if RunTool(first.store, tool).Some? {
      UnusedLater(s, tools, k);
      WriteIs(first.store, tool);
      OldSheet(s, tools, k);
      RunKeeps(s, tools[..k]);
      CellsLeakNow(s, tools[..k], tool.key, Writes(first.store, tool).value);
    }
  }

  lemma OldSheet(s: Store, tools: seq<Tool>, k: nat)
    requires s.WellFormed() && k < |tools| && Admitted(s, tools) && tools[k].WriteCells? && Writes(After(s, tools[..k]).store, tools[k]).Some?
    ensures forall c :: c in Writes(After(s, tools[..k]).store, tools[k]).value ==> c.sheet < s.nextId
  {
    hide Writes, Saga.Execute;
    assert tools[k] in tools;
    WritesOnSheet(After(s, tools[..k]).store, tools[k]);
  }

  lemma CellsLeakNow(s: Store, tools: seq<Tool>, key: nat, writes: map<Cell, string>)
    requires s.WellFormed() && Admitted(s, tools) && Unused(s, tools) && After(s, tools).ok && forall c :: c in writes ==> c.sheet < s.nextId
    requires After(s, tools).store.WellFormed() && Same(s, UndoAll(After(s, tools).store, After(s, tools).dones).store)
    requires UndoAll(After(s, tools).store, After(s, tools).dones).ok
    ensures var t := After(s, tools).store;
            var x := t.Write(writes).(done := t.done[Key(key, Own) := t.nextId]);
            Same(s, UndoAll(x, After(s, tools).dones).store) <==> forall c :: c in writes ==> Held(s, tools, c, writes[c])
  {
    hide Saga.Execute, UndoAll, RunTool, Unused, Held, Admitted, Retains;
    var t, dones := After(s, tools).store, After(s, tools).dones;
    var x := t.Write(writes).(done := t.done[Key(key, Own) := t.nextId]);
    var u := UndoAll(x, dones).store;
    LeakedWrite(t, writes, key);
    UndoThings(x, t, dones);
    forall c ensures u.Get(c) == s.Get(c) <==> (c in writes ==> Held(s, tools, c, writes[c])) {
      if c in writes {
        CellGoesBack(s, tools, x, c);
        if s.Get(c) == writes[c] { HeldAtFirst(s, tools, c); }
      } else {
        SameCell(s, tools, x, t, c);
      }
    }
  }

  lemma HeldAtFirst(s: Store, tools: seq<Tool>, c: Cell)
    ensures Held(s, tools, c, s.Get(c))
  {
  }

  lemma LeakedWrite(t: Store, writes: map<Cell, string>, key: nat)
    requires t.WellFormed()
    ensures var x := t.Write(writes).(done := t.done[Key(key, Own) := t.nextId]);
            && Retains(t, x) && Retains(t, t) && x.objects == t.objects && x.sheets == t.sheets
            && forall c :: x.Get(c) == if c in writes then writes[c] else t.Get(c)
  {
    hide Store.Write;
    WriteFacts(t, writes);
    forall c ensures t.Write(writes).(done := t.done[Key(key, Own) := t.nextId]).Get(c) == t.Write(writes).Get(c) {}
  }
}
