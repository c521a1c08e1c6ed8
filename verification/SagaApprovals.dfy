/**
  Several approvals of one plan in turn.  An approval that reports the plan done
  should leave what one whole run leaves, up to identifiers and counters: the ways
  in which a later one does not, and when it does.
*/
module SagaApprovals {
  import opened CellAddress
  import opened Saga
  import opened SagaRetry
  import opened SagaEffect
  import opened SagaLockstep
  import opened SagaAgain
  import opened SagaApart
  import SagaAgent

  // -------- an approval that is done at once --------

  // A run that goes through met no failure.
  lemma {:induction false} WentThrough(s: Store, tools: seq<Tool>, envs: seq<Env>)
    requires |tools| == |envs| && Execute(s, tools, envs).ok
    ensures Execute(s, tools, envs) == After(s, tools)
    decreases |tools|
  {
    hide RunTool, Broken;
    if tools == [] {
      Nothing(s);
    } else {
      var s1 := RunTool(s, tools[0]).value.0;
      WentThrough(s1, tools[1..], envs[1..]);
      assert AllFine(|tools|)[1..] == AllFine(|tools| - 1);
    }
  }

  // -------- one call, made, not written down, undone and made again --------

  lemma OneCall(s: Store, tool: Tool)
    requires s.WellFormed() && RunTool(s, tool).Some? && Unused(s, [tool]) && Admitted(s, [tool])
    ensures Tried(s, [tool], [[BookkeepingFails]]) && Reached(s, [tool], [[BookkeepingFails]]) == 1
  {
    hide RunTool, Store.WellFormed, Admitted, Unused, Settle;
    assert [[BookkeepingFails]][1..] == [];
  }

  lemma OneCallAgain(s: Store, tool: Tool)
    ensures After(s, [tool]).ok <==> RunTool(s, tool).Some?
    ensures RunTool(s, tool).Some? ==> After(s, [tool]).store == RunTool(s, tool).value.0
  {
    hide RunTool, Saga.Execute;
    AfterFirst(s, [tool]);
    if RunTool(s, tool).Some? {
      assert [tool][1..] == [];
      Nothing(RunTool(s, tool).value.0);
    }
  }

  // A report is made again and is blank.
  lemma ReportAgain(s: Store, tool: Tool, p: Place)
    requires s.WellFormed() && tool.CreateReport? && !s.Taken(tool.name) && Unused(s, [tool])
    requires p in tool.text && tool.text[p] != ""
    ensures Tried(s, [tool], [[BookkeepingFails]])
    ensures var u := Settled(s, [tool], [[BookkeepingFails]]);
            var t := After(u, [tool]).store;
            && After(u, [tool]).ok && u.nextId in t.sheets && t.sheets[u.nextId] == tool.name
            && (forall row, column :: t.Get(Cell(u.nextId, row, column)) == "")
            && !Effective(s, [tool], u)
  {
    hide RunTool, Saga.Execute, Settled, Updates, Store.Get, Store.WellFormed, Reached, Effective, Unused, Store.Taken, Back;
    ReportRuns(s, tool);
    OneCall(s, tool);
    TriedFacts(s, [tool], [[BookkeepingFails]]);
    KnownTexts(s, [tool], [[BookkeepingFails]], 0);
    var u := Settled(s, [tool], [[BookkeepingFails]]);
    SameNames(s, u, tool.name);
    ReportRuns(u, tool);
    OneCallAgain(u, tool);
    forall row, column ensures After(u, [tool]).store.Get(Cell(u.nextId, row, column)) == "" {
      ReportCell(u, tool, Cell(u.nextId, row, column));
    }
    ReportCell(u, tool, Cell(u.nextId, 0, 0));
    ChangeIsLost(s, [tool], [[BookkeepingFails]], 0);
  }

  lemma SameNames(s: Store, u: Store, name: string)
    requires Same(s, u)
    ensures s.Taken(name) <==> u.Taken(name)
  {
  }

  // An update of a chart is refused.
  lemma UpdateAgain(s: Store, tool: Tool)
    requires s.WellFormed() && tool.UpdateChart? && RunTool(s, tool).Some? && tool.content != s.objects[tool.chart].content
    requires Unused(s, [tool])
    ensures Tried(s, [tool], [[BookkeepingFails]]) && After(s, [tool]).ok
    ensures !After(Settled(s, [tool], [[BookkeepingFails]]), [tool]).ok
  {
    hide RunTool, Saga.Execute, Settled, Updates, Store.WellFormed, Reached, Unused;
    UpdateFound(s, tool);
    OneCall(s, tool);
    OneCallAgain(s, tool);
    UpdateIsRefused(s, [tool], [[BookkeepingFails]], 0);
  }

  lemma UpdateFound(s: Store, tool: Tool)
    requires tool.UpdateChart? && RunTool(s, tool).Some?
    ensures tool.chart in s.objects
  {
  }

  // A change of cells is answered and not made.
  lemma SortAgain(s: Store, tool: Tool)
    requires s.WellFormed() && tool.WriteCells? && RunTool(s, tool).Some? && Changes(s, tool) && Unused(s, [tool])
    ensures Tried(s, [tool], [[BookkeepingFails]])
    ensures var u := Settled(s, [tool], [[BookkeepingFails]]);
            After(u, [tool]).ok && Same(s, After(u, [tool]).store) && !Effective(s, [tool], u)
  {
    hide RunTool, Saga.Execute, Settled, Updates, Store.Get, Store.WellFormed, Reached, Effective, Changes, Unused, Back, Same, Texts,
      AllFree, AreasApart, Admitted, Tried;
    WriteAdmitted(s, tool);
    OneCall(s, tool);
    TriedFacts(s, [tool], [[BookkeepingFails]]);
    KnownTexts(s, [tool], [[BookkeepingFails]], 0);
    var u := Settled(s, [tool], [[BookkeepingFails]]);
    WriteSkipped(s, u, tool);
    OneCallAgain(u, tool);
    OneIsApart(tool);
    ChangeIsLost(s, [tool], [[BookkeepingFails]], 0);
  }

  lemma WriteAdmitted(s: Store, tool: Tool)
    requires tool.WriteCells? && RunTool(s, tool).Some?
    ensures Admitted(s, [tool])
  {
    hide Rewritten, Store.WriteOnce, Placed;
    assert forall t :: t in [tool] ==> t == tool;
  }

  lemma OneIsApart(tool: Tool)
    ensures AreasApart([tool])
  {
  }

  lemma SameRewritten(s: Store, u: Store, tool: Tool)
    requires Same(s, u) && tool.WriteCells?
    ensures Rewritten(s, tool) == Rewritten(u, tool)
  {
    hide Store.Get, SameThings;
    assert Contents(s, tool.sheet, tool.area) == Contents(u, tool.sheet, tool.area);
  }

  lemma WriteSkipped(s: Store, u: Store, tool: Tool)
    requires Same(s, u) && tool.WriteCells? && TextKey(tool) in u.done && RunTool(s, tool).Some?
    ensures RunTool(u, tool).Some? && RunTool(u, tool).value.0 == u
  {
    hide Store.Get, RunTool, Rewritten, Placed, Store.Write;
    SameRewritten(s, u, tool);
    WriteRuns(s, tool);
    WriteRuns(u, tool);
  }

  // -------- a completed plan that is undone --------

  // What a call of a run on s did.
  ghost predicate Made(s: Store, d: Done) {
    match d
    case Wrote(_) => true
    case Created(item, _, _) => item >= s.nextId
    case Updated(chart, was, _) => chart in s.objects && was == s.objects[chart]
    case Reported(sheet) => sheet >= s.nextId
  }

  lemma ToolMade(s: Store, tool: Tool)
    requires s.WellFormed() && RunTool(s, tool).Some? && Rested(s, tool)
    ensures var (s1, d) := RunTool(s, tool).value;
            && Made(s, d) && (d.Updated? <==> tool.UpdateChart?) && (tool.UpdateChart? ==> d.chart == tool.chart)
            && (d.Wrote? ==> d.operation in s1.operations)
  {
    hide Store.Write, WriteReport, Rewritten, Store.WellFormed;
    if tool.WriteCells? { WriteFacts(s, Writes(s, tool).value); }
  }

  // Later calls did not touch what an earlier one did.
  lemma StillMade(s: Store, tool: Tool, d: Done)
    requires s.WellFormed() && RunTool(s, tool).Some? && Made(RunTool(s, tool).value.0, d)
    requires d.Updated? ==> d.chart in s.objects && !(tool.UpdateChart? && tool.chart == d.chart)
    ensures Made(s, d)
  {
    hide RunTool, Store.WellFormed;
    RunToolAdds(s, tool);
  }

  lemma {:induction false} RunMade(s: Store, tools: seq<Tool>, d: Done)
    requires s.WellFormed() && Admitted(s, tools) && Ready(s, tools) && After(s, tools).ok && d in After(s, tools).dones
    ensures Made(s, d) && (d.Wrote? ==> d.operation in After(s, tools).store.operations)
    ensures d.Updated? ==> exists t :: t in tools && t.UpdateChart? && t.chart == d.chart
    decreases |tools|
  {
    hide RunTool, Saga.Execute, Store.WellFormed, Admitted, Ready, Rested, Made;
    if tools == [] {
      Nothing(s);
      assert false;
    } else {
      AfterStep(s, tools);
      var (s1, e) := RunTool(s, tools[0]).value;
      RunToolKeepsShape(s, tools[0]);
      ReadyRest(s, tools);
      AdmittedRest(s, tools);
      ToolMade(s, tools[0]);
      NoLeakFine(|tools| - 1);
      RunKeepsOps(s1, tools[1..], AllFine(|tools| - 1));
      assert tools[0] in tools;
      if d != e {
        RunMade(s1, tools[1..], d);
        if d.Updated? {
          var t :| t in tools[1..] && t.UpdateChart? && t.chart == d.chart;
          OtherCharts(s, tools, t);
        }
        StillMade(s, tools[0], d);
      }
    }
  }

  lemma OtherCharts(s: Store, tools: seq<Tool>, t: Tool)
    requires tools != [] && Admitted(s, tools) && t in tools[1..] && t.UpdateChart?
    ensures t in tools && t.chart in s.objects && !(tools[0].UpdateChart? && tools[0].chart == t.chart)
  {
    var i :| 0 <= i < |tools| - 1 && tools[1..][i] == t;
    assert tools[i + 1] == t;
  }

  // All of this has been undone on u: doing it once more changes nothing to see.
  ghost predicate Inert(s: Store, u: Store, dones: seq<Done>) {
    Same(s, u) && forall d :: d in dones ==> Made(s, d) && (d.Wrote? ==> Spent(u, d.operation))
  }

  lemma OneInert(s: Store, u: Store, dones: seq<Done>, d: Done)
    requires s.WellFormed() && Inert(s, u, dones) && d in dones && UndoTool(u, d).Some?
    ensures Inert(s, UndoTool(u, d).value, dones)
  {
    hide Store.Get, Store.UndoWrites;
    assert Made(s, d);
    if d.Updated? {
      var v := UndoTool(u, d).value;
      forall c ensures v.Get(c) == u.Get(c) { CellsGet(u, v, c); }
      assert v.objects.Keys == u.objects.Keys;
    } else {
      assert UndoTool(u, d).value == u;
    }
  }

  lemma {:induction false} StaysInert(s: Store, u: Store, all: seq<Done>, dones: seq<Done>)
    requires s.WellFormed() && Inert(s, u, all) && dones <= all
    ensures Inert(s, UndoAll(u, dones).store, all)
    decreases |dones|
  {
    hide UndoTool, Inert, Store.WellFormed;
    if dones != [] && UndoTool(u, dones[|dones| - 1]).Some? {
      var last := dones[|dones| - 1];
      assert all[|dones| - 1] == last;
      OneInert(s, u, all, last);
      StaysInert(s, UndoTool(u, last).value, all, dones[..|dones| - 1]);
    }
  }

  lemma UndoneIsInert(s: Store, tools: seq<Tool>)
    requires s.WellFormed() && Admitted(s, tools) && Ready(s, tools) && After(s, tools).ok
    ensures Inert(s, UndoAll(After(s, tools).store, After(s, tools).dones).store, After(s, tools).dones)
  {
    hide Saga.Execute, UndoAll, Made, Spent, Same, Store.WellFormed, Admitted, Ready;
    var run := After(s, tools);
    var u := UndoAll(run.store, run.dones).store;
    NoLeakFine(|tools|);
    CompensationRestores(s, tools, AllFine(|tools|));
    RunShape(s, tools, AllFine(|tools|));
    forall d | d in run.dones ensures Made(s, d) && (d.Wrote? ==> Spent(u, d.operation)) {
      RunMade(s, tools, d);
      if d.Wrote? {
        IsRecorded(run.store, d.operation);
        AllSpent(run.store, run.dones, d.operation);
      }
    }
  }

  // -------- plans that leave no trace --------

  // The plan only rewrites cells, and leaves every one with the text it had.
  ghost predicate Idle(s: Store, tools: seq<Tool>) {
    && (forall t :: t in tools ==> t.WriteCells?)
    && forall c: Cell :: c.sheet < s.nextId ==> After(s, tools).store.Get(c) == s.Get(c)
  }

  lemma {:induction false} WritesKeepThings(s: Store, tools: seq<Tool>)
    requires After(s, tools).ok && forall t :: t in tools ==> t.WriteCells?
    ensures After(s, tools).store.objects == s.objects && After(s, tools).store.sheets == s.sheets
    decreases |tools|
  {
    hide RunTool, Saga.Execute;
    if tools == [] {
      Nothing(s);
    } else {
      AfterStep(s, tools);
      assert tools[0] in tools;
      WriteKeepsThings(s, tools[0]);
      assert forall t :: t in tools[1..] ==> t in tools;
      WritesKeepThings(RunTool(s, tools[0]).value.0, tools[1..]);
    }
  }

  lemma WriteKeepsThings(s: Store, tool: Tool)
    requires tool.WriteCells? && RunTool(s, tool).Some?
    ensures RunTool(s, tool).value.0.objects == s.objects && RunTool(s, tool).value.0.sheets == s.sheets
  {
    hide Store.Write, Rewritten;
    WriteFacts(s, Writes(s, tool).value);
  }

  // The whole run leaves what doing nothing leaves if and only if the plan is idle.
  lemma LeavesNothing(s: Store, tools: seq<Tool>, u: Store)
    requires s.WellFormed() && Admitted(s, tools) && Unused(s, tools) && After(s, tools).ok && Same(s, u)
    ensures SameEffect(s.nextId, After(s, tools).store, u) <==> Idle(s, tools)
  {
    hide Saga.Execute, Alike, Admitted, Unused, Store.WellFormed, Same, Store.Get;
    var t := After(s, tools).store;
    if Idle(s, tools) {
      WritesKeepThings(s, tools);
      IdleLooksAlike(s, t, u);
    }
    if SameEffect(s.nextId, t, u) {
      var r :| Alike(s.nextId, r, t, u);
      forall tool | tool in tools ensures tool.WriteCells? { OnlyWrites(s, tools, u, r, tool); }
      forall c: Cell | c.sheet < s.nextId ensures t.Get(c) == s.Get(c) {
        OldCellAlike(s.nextId, r, t, u, c);
        SameAtCell(s, u, c);
      }
    }
  }

  lemma SameAtCell(s: Store, u: Store, c: Cell)
    requires Same(s, u)
    ensures s.Get(c) == u.Get(c)
  {
  }

  lemma IdleLooksAlike(s: Store, t: Store, u: Store)
    requires s.WellFormed() && Same(s, u) && t.objects == s.objects && t.sheets == s.sheets
    requires forall c: Cell :: c.sheet < s.nextId ==> t.Get(c) == s.Get(c)
    ensures SameEffect(s.nextId, t, u)
  {
    hide Store.Get;
    var r := Unnamed();
    forall i: Id ensures ObjectAlike(r, t, u, i) { if i in s.objects { assert SameObject(s.objects[i], u.objects[i]); } }
    forall c: Cell ensures CellAlike(s.nextId, r, t, u, c) { assert MovedCell(r, c) == c; }
    assert Alike(s.nextId, r, t, u);
  }

  lemma OnlyWrites(s: Store, tools: seq<Tool>, u: Store, r: Renaming, tool: Tool)
    requires s.WellFormed() && Admitted(s, tools) && Unused(s, tools) && After(s, tools).ok && Same(s, u)
    requires Alike(s.nextId, r, After(s, tools).store, u) && tool in tools
    ensures tool.WriteCells?
  {
    hide Saga.Execute, Alike, Admitted, Unused, Store.WellFormed, Same, SagaRetry.Left;
    var t := After(s, tools).store;
    AllLeftAfter(s, tools);
    var i :| 0 <= i < |tools| && tools[i] == tool;
    var d := After(s, tools).dones[i];
    assert SagaRetry.Left(s, t, tool, d);
    AdmittedUpdates(s, tools);
    LeavesTrace(s, t, u, r, tool, d);
  }

  lemma AdmittedUpdates(s: Store, tools: seq<Tool>)
    requires Admitted(s, tools)
    ensures forall t :: t in tools && t.UpdateChart? ==> t.chart in s.objects && t.content != s.objects[t.chart].content
  {
  }

  lemma LeavesTrace(s: Store, t: Store, u: Store, r: Renaming, tool: Tool, d: Done)
    requires s.WellFormed() && Same(s, u) && Alike(s.nextId, r, t, u) && SagaRetry.Left(s, t, tool, d)
    requires tool.UpdateChart? ==> tool.chart in s.objects && tool.content != s.objects[tool.chart].content
    ensures tool.WriteCells?
  {
    hide Alike, Same, Store.WellFormed;
    match tool {
      case WriteCells(_, _, _, _) =>
      case CreateObject(_, _, _, _) => NothingNew(s, t, u, r, d.item);
      case CreateReport(_, _, _, _) => NothingNew(s, t, u, r, d.sheet);
      case UpdateChart(_, chart, _, _) => OldContent(s, t, u, r, chart);
    }
  }

  lemma NothingNew(s: Store, t: Store, u: Store, r: Renaming, i: Id)
    requires s.WellFormed() && Same(s, u) && Alike(s.nextId, r, t, u) && i >= s.nextId
    ensures i !in t.objects && i !in t.sheets
  {
    hide Store.Get, CellAlike;
    NewStaysNew(s.nextId, r, i);
    assert ObjectAlike(r, t, u, i) && SheetAlike(r, t, u, i);
  }

  lemma OldContent(s: Store, t: Store, u: Store, r: Renaming, chart: Id)
    requires s.WellFormed() && Same(s, u) && Alike(s.nextId, r, t, u) && chart in s.objects
    ensures chart in t.objects && t.objects[chart].content == s.objects[chart].content
  {
    hide Store.Get, CellAlike;
    assert RenamesAt(s.nextId, r, chart) && ObjectAlike(r, t, u, chart);
    assert SameObject(s.objects[chart], u.objects[chart]);
  }

  // -------- approvals until the plan is done --------

  lemma {:induction false} SettledLast(s: Store, tools: seq<Tool>, runs: seq<seq<Env>>, envs: seq<Env>)
    requires Attempts(tools, runs) && |envs| == |tools| && NoLeak(envs)
    ensures Attempts(tools, runs + [envs])
    ensures Settled(s, tools, runs + [envs]) == Settle(Settled(s, tools, runs), tools, envs)
    decreases |runs|
  {
    hide Settle, NoLeak;
    if runs == [] {
      assert runs + [envs] == [envs] && [envs][1..] == [];
    } else {
      assert (runs + [envs])[1..] == runs[1..] + [envs];
      SettledLast(Settle(s, tools, runs[0]), tools, runs[1..], envs);
    }
  }

  lemma FirstRuns(tools: seq<Tool>, runs: seq<seq<Env>>, i: nat)
    requires Attempts(tools, runs) && i < |runs|
    ensures Attempts(tools, runs[..i]) && |runs[i]| == |tools| && NoLeak(runs[i]) && runs[..i + 1] == runs[..i] + [runs[i]]
  {
    assert runs[i] in runs;
  }

  // Approvals that fail, in a call or at the last statement: each is undone and
  // leaves the plan to be run from its first call.
  method ApproveInVain(agent: SagaAgent.Agent, s: Store, tools: seq<Tool>, runs: seq<seq<Env>>, saved: seq<bool>)
    requires agent.Valid() && agent.store == s && agent.change.None? && agent.phase.Planned?
    requires SagaAgent.Tools(agent.column) == tools && SagaAgent.Dones(agent.column) == []
    requires Tried(s, tools, runs) && |saved| == |runs|
    requires forall i :: 0 <= i < |runs| && saved[i] ==> Attempts(tools, runs[..i]) && !Execute(Settled(s, tools, runs[..i]), tools, runs[i]).ok
    modifies agent
    ensures agent.Valid() && agent.store == Settled(s, tools, runs) && agent.column == old(agent.column)
    ensures !agent.phase.Applied? && !agent.phase.Closed?
  {
    hide RunTool, Saga.Execute, UndoAll, Admitted, Unused, Store.WellFormed, Same, Settled, SagaAgent.Dones, SagaAgent.Tools, NoLeak;
    assert Settled(s, tools, runs[..0]) == s by { Untried(s, tools); }
    assert tools[0..] == tools;
    for i := 0 to |runs|
      invariant agent.Valid() && agent.column == old(agent.column) && !agent.phase.Applied? && !agent.phase.Closed?
      invariant Attempts(tools, runs[..i]) && agent.store == Settled(s, tools, runs[..i])
    {
      FirstRuns(tools, runs, i);
      SettledLast(s, tools, runs[..i], runs[i]);
      assert runs[i][0..] == runs[i];
      assert forall d: seq<Saga.Done> :: [] + d == d;
      var _ := agent.Approve(runs[i], saved[i], true);
    }
    assert runs[..|runs|] == runs;
  }

  lemma Untried(s: Store, tools: seq<Tool>)
    ensures Settled(s, tools, []) == s
  {
  }

  // Every way to a plan reported as done: approvals in vain, one that goes through,
  // and, if that could not be finished, more that skip every call.  One of these
  // whose last statement fails undoes the calls and leaves the stored list as it
  // is, so that the last approval reports the plan done without looking.
  method ApproveUntilDone(s: Store, tools: seq<Tool>, runs: seq<seq<Env>>, vain: seq<bool>, again: seq<Env>, saved: seq<bool>)
    returns (last: SagaAgent.Outcome, end: Store)
    requires Tried(s, tools, runs) && |vain| == |runs| && |again| == |tools|
    requires forall i :: 0 <= i < |runs| && vain[i] ==> Attempts(tools, runs[..i]) && !Execute(Settled(s, tools, runs[..i]), tools, runs[i]).ok
    requires Execute(Settled(s, tools, runs), tools, again).ok
    ensures last.Done?
    ensures if false in saved then Same(s, end) else end == After(Settled(s, tools, runs), tools).store
    ensures After(s, tools).ok && false in saved ==> (SameEffect(s.nextId, After(s, tools).store, end) <==> Idle(s, tools))
    ensures After(s, tools).ok && false !in saved ==>
              (SameEffect(s.nextId, After(s, tools).store, end)
               <==> && NoUpdate(tools, Reached(s, tools, runs))
                    && After(Silenced(s, tools, runs), tools).ok
                    && SameEffect(s.nextId, After(s, tools).store, After(Silenced(s, tools, runs), tools).store))
    ensures After(s, tools).ok && false !in saved && AreasApart(tools) ==>
              (SameEffect(s.nextId, After(s, tools).store, end) <==> Harmless(s, tools, Reached(s, tools, runs)))
  {
    hide RunTool, Saga.Execute, UndoAll, SameEffect, Admitted, Unused, Ready, Store.WellFormed, Same, Inert, Idle, Settled, Reached, Updates, Back,
         NoUpdate, Harmless, AreasApart, SagaAgent.Dones, SagaAgent.Tools;
    var agent := new SagaAgent.Agent(s, tools, None);
    ApproveInVain(agent, s, tools, runs, vain);
    ghost var u := Settled(s, tools, runs);
    assert tools[0..] == tools && again[0..] == again;
    assert forall d: seq<Saga.Done> :: [] + d == d && d + [] == d;
    last := agent.Approve(again, true, false);
    WentThrough(u, tools, again);
    ghost var run := After(u, tools);
    UnusedIsReady(s, tools);
    Compensated(s, tools, runs);
    BackFacts(s, u, Updates(s, tools, runs));
    BackIsSame(s, u, Updates(s, tools, runs));
    UndoneIsInert(u, tools);
    assert tools[|tools|..] == [] && again[|tools|..] == [];
    for i := 0 to |saved|
      invariant agent.Valid() && agent.phase.Applying? && agent.change.None?
      invariant SagaAgent.Tools(agent.column) == tools && SagaAgent.Dones(agent.column) == run.dones && |run.dones| == |tools| == |agent.column|
      invariant if false in saved[..i] then Inert(u, agent.store, run.dones) else agent.store == run.store
    {
      Skipped(agent.store);
      if false in saved[..i] { StaysInert(u, agent.store, run.dones, run.dones); }
      assert saved[..i + 1] == saved[..i] + [saved[i]];
      last := agent.Approve(again, saved[i], false);
    }
    assert saved[..|saved|] == saved;
    Skipped(agent.store);
    last := agent.Approve(again, true, true);
    end := agent.store;
    if false in saved {
      InertIsSame(u, end, run.dones);
      SameThrough(s, u, end);
      if After(s, tools).ok { LeavesNothing(s, tools, end); }
    } else {
      EffectiveIff(s, tools, runs);
      if AreasApart(tools) { ApprovedAgain(s, tools, runs); }
    }
  }

  lemma SameThrough(s: Store, u: Store, v: Store)
    requires Same(s, u) && Same(u, v)
    ensures Same(s, v)
  {
    hide Store.Get;
    forall id | id in s.objects ensures SameObject(s.objects[id], v.objects[id]) {
      assert SameObject(s.objects[id], u.objects[id]) && SameObject(u.objects[id], v.objects[id]);
    }
  }

  lemma Skipped(s: Store)
    ensures Saga.Execute(s, [], []) == Run(s, [], true)
  {
  }

  lemma InertIsSame(s: Store, u: Store, dones: seq<Done>)
    requires Inert(s, u, dones)
    ensures Same(s, u)
  {
  }
}
