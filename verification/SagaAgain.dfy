/**
  A plan approved again after attempts that were compensated.  The workbook is as
  it was, but the keys of the cell operations made stay known and a compensated
  update has moved its chart's revision on, so a further run may be refused or go
  through without its effect.
*/
module SagaAgain {
  import opened CellAddress
  import opened Saga
  import opened SagaRetry
  import opened SagaEffect
  import opened SagaLockstep

  // How many calls of an attempt leave a trace that compensation does not take away: the
  // completed ones, and a report that broke after its text was made.
  function Got(s: Store, tools: seq<Tool>, envs: seq<Env>): (q: nat)
    requires |tools| == |envs|
    ensures q <= |tools|
    decreases |tools|
  {
    if tools == [] then 0
    else if envs[0].Breaks? then
      if envs[0].point.TextMade? && tools[0].CreateReport? && !s.Taken(tools[0].name) then 1 else 0
    else
      match RunTool(s, tools[0])
      case None => 0
      case Some((s1, _)) => if envs[0].BookkeepingFails? then 1 else 1 + Got(s1, tools[1..], envs[1..])
  }

  // The keys of the texts of some calls.
  ghost function Texts(tools: seq<Tool>): set<Key> { set t | t in tools && WritesText(t) :: TextKey(t) }

  // What an attempt and its compensation leave.
  function Settle(s: Store, tools: seq<Tool>, envs: seq<Env>): Store
    requires |tools| == |envs|
  {
    var run := Execute(s, tools, envs);
    UndoAll(run.store, run.dones).store
  }

  // Attempts in which nothing broke after a commit.
  predicate Attempts(tools: seq<Tool>, runs: seq<seq<Env>>) { forall envs :: envs in runs ==> |envs| == |tools| && NoLeak(envs) }

  // What any number of attempts leave, each of them compensated.
  function Settled(s: Store, tools: seq<Tool>, runs: seq<seq<Env>>): Store
    requires Attempts(tools, runs)
    decreases |runs|
  {
    if runs == [] then s
    else
      assert runs[0] in runs;
      Settled(Settle(s, tools, runs[0]), tools, runs[1..])
  }

  // How many calls the attempts got to, the furthest of them.
  function Reached(s: Store, tools: seq<Tool>, runs: seq<seq<Env>>): (q: nat)
    requires Attempts(tools, runs)
    ensures q <= |tools|
    decreases |runs|
  {
    if runs == [] then 0
    else
      assert runs[0] in runs;
      var later := Reached(Settle(s, tools, runs[0]), tools, runs[1..]);
      var now := Got(s, tools, runs[0]);
      if now < later then later else now
  }

  // The charts the attempts updated.
  ghost function Updates(s: Store, tools: seq<Tool>, runs: seq<seq<Env>>): set<Id>
    requires Attempts(tools, runs)
    decreases |runs|
  {
    if runs == [] then {}
    else
      assert runs[0] in runs;
      Touched(Execute(s, tools, runs[0]).dones) + Updates(Settle(s, tools, runs[0]), tools, runs[1..])
  }

  // A plan nobody has run before was admitted, tried, and compensated each time.
  ghost predicate Tried(s: Store, tools: seq<Tool>, runs: seq<seq<Env>>) {
    s.WellFormed() && Attempts(tools, runs) && Admitted(s, tools) && Unused(s, tools)
  }

  // Run on u, the plan goes through and leaves what one whole run on s leaves.
  ghost predicate Effective(s: Store, tools: seq<Tool>, u: Store) {
    After(s, tools).ok && After(u, tools).ok && SameEffect(s.nextId, After(s, tools).store, After(u, tools).store)
  }

  // -------- what stays after compensation --------

  lemma TextsFirst(tools: seq<Tool>, q: nat)
    requires 0 < q <= |tools|
    ensures Texts(tools[..q]) == Texts(tools[1..][..q - 1]) + if WritesText(tools[0]) then {TextKey(tools[0])} else {}
  {
    assert forall t :: t in tools[..q] <==> t == tools[0] || t in tools[1..][..q - 1] by {
      assert tools[..q] == [tools[0]] + tools[1..][..q - 1];
    }
  }

  lemma ToolDone(s: Store, tool: Tool)
    requires RunTool(s, tool).Some?
    ensures RunTool(s, tool).value.0.done.Keys == s.done.Keys + if WritesText(tool) then {TextKey(tool)} else {}
  {
    hide Store.Write, Placed, Rewritten;
    if tool.CreateReport? { ReportDone(s, tool); }
    if tool.WriteCells? { WriteFacts(s, Writes(s, tool).value); }
  }

  lemma ReportDone(s: Store, tool: Tool)
    requires tool.CreateReport?
    ensures WriteReport(s, tool).done.Keys == s.done.Keys + {TextKey(tool)}
  {
    hide Store.Write, Placed;
    WriteFacts(AddSheet(s, tool.name), Placed(s.nextId, tool.text));
  }

  lemma BrokenDone(s: Store, tool: Tool, point: Point)
    requires !point.AfterCommit?
    ensures Broken(s, tool, point).done.Keys
         == s.done.Keys + if point.TextMade? && tool.CreateReport? && !s.Taken(tool.name) then {TextKey(tool)} else {}
  {
    hide WriteReport;
    if tool.CreateReport? { ReportDone(s, tool); }
  }

  // The texts of the calls got to are known under their keys, and no others.
  lemma {:induction false} RunDone(s: Store, tools: seq<Tool>, envs: seq<Env>)
    requires |tools| == |envs| && NoLeak(envs)
    ensures Execute(s, tools, envs).store.done.Keys == s.done.Keys + Texts(tools[..Got(s, tools, envs)])
    decreases |tools|
  {
    hide RunTool, Broken;
    var q := Got(s, tools, envs);
    assert tools[..0] == [] && Texts([]) == {};
    if tools == [] {
    } else if envs[0].Breaks? {
      assert envs[0] in envs;
      BrokenDone(s, tools[0], envs[0].point);
      if q == 1 {
        TextsFirst(tools, 1);
        assert tools[1..][..0] == [];
      }
    } else if RunTool(s, tools[0]).Some? {
      ToolDone(s, tools[0]);
      TextsFirst(tools, q);
      if envs[0].BookkeepingFails? {
        assert tools[1..][..0] == [];
      } else {
        NoLeakRest(envs);
        RunDone(RunTool(s, tools[0]).value.0, tools[1..], envs[1..]);
      }
    }
  }

  lemma {:induction false} UndoKeepsDone(t: Store, dones: seq<Done>)
    ensures UndoAll(t, dones).store.done == t.done
    decreases |dones|
  {
    hide Store.Get;
    if dones != [] {
      var r := UndoTool(t, dones[|dones| - 1]);
      if r.Some? { UndoKeepsDone(r.value, dones[..|dones| - 1]); }
    }
  }

  // Keys that answer for objects are old ones, or stand for identifiers given since.
  ghost predicate KeysSince(s: Store, t: Store) {
    s.nextId <= t.nextId && forall k :: k in t.keyed ==> (k in s.keyed && t.keyed[k] == s.keyed[k]) || s.nextId <= t.keyed[k] < t.nextId
  }

  lemma ToolKeys(s: Store, tool: Tool)
    requires RunTool(s, tool).Some?
    ensures KeysSince(s, RunTool(s, tool).value.0)
  {
    hide Store.Write, WriteReport, Rewritten;
    if tool.CreateReport? { ReportIds(s, tool); }
    if tool.WriteCells? { WriteFacts(s, Writes(s, tool).value); }
  }

  lemma ReportIds(s: Store, tool: Tool)
    requires tool.CreateReport?
    ensures WriteReport(s, tool).keyed == s.keyed && WriteReport(s, tool).nextId > s.nextId
  {
    hide Store.Write, Placed;
    WriteFacts(AddSheet(s, tool.name), Placed(s.nextId, tool.text));
  }

  lemma BrokenKeys(s: Store, tool: Tool, point: Point)
    requires !point.AfterCommit?
    ensures KeysSince(s, Broken(s, tool, point))
  {
    hide WriteReport;
    if tool.CreateReport? { ReportIds(s, tool); }
  }

  lemma UndoKeys(s: Store, d: Done)
    requires UndoTool(s, d).Some?
    ensures KeysSince(s, UndoTool(s, d).value)
  {
    hide Store.Get;
  }

  lemma {:induction false} RunKeys(s: Store, tools: seq<Tool>, envs: seq<Env>)
    requires |tools| == |envs| && NoLeak(envs)
    ensures KeysSince(s, Execute(s, tools, envs).store)
    decreases |tools|
  {
    hide RunTool, Broken;
    if tools != [] {
      if envs[0].Breaks? {
        assert envs[0] in envs;
        BrokenKeys(s, tools[0], envs[0].point);
      } else if RunTool(s, tools[0]).Some? {
        ToolKeys(s, tools[0]);
        NoLeakRest(envs);
        RunKeys(RunTool(s, tools[0]).value.0, tools[1..], envs[1..]);
      }
    }
  }

  lemma {:induction false} UndoAllKeys(s: Store, dones: seq<Done>)
    ensures KeysSince(s, UndoAll(s, dones).store)
    decreases |dones|
  {
    hide UndoTool;
    if dones != [] && UndoTool(s, dones[|dones| - 1]).Some? {
      UndoKeys(s, dones[|dones| - 1]);
      UndoAllKeys(UndoTool(s, dones[|dones| - 1]).value, dones[..|dones| - 1]);
    }
  }

  // -------- what was made is undone --------

  lemma OpsStay(s: Store, tool: Tool)
    requires RunTool(s, tool).Some?
    ensures s.operations.Keys <= RunTool(s, tool).value.0.operations.Keys
  {
    hide Rewritten, Placed;
  }

  lemma BrokenOps(s: Store, tool: Tool, point: Point)
    requires !point.AfterCommit?
    ensures s.operations.Keys <= Broken(s, tool, point).operations.Keys
    ensures forall k :: k in Broken(s, tool, point).done && k.part.Own? ==> k in s.done && Broken(s, tool, point).done[k] == s.done[k]
  {
    hide Placed;
  }

  lemma {:induction false} RunKeepsOps(s: Store, tools: seq<Tool>, envs: seq<Env>)
    requires |tools| == |envs| && NoLeak(envs)
    ensures s.operations.Keys <= Execute(s, tools, envs).store.operations.Keys
    decreases |tools|
  {
    hide RunTool, Broken;
    if tools != [] {
      if envs[0].Breaks? {
        assert envs[0] in envs;
        BrokenOps(s, tools[0], envs[0].point);
      } else if RunTool(s, tools[0]).Some? {
        OpsStay(s, tools[0]);
        NoLeakRest(envs);
        RunKeepsOps(RunTool(s, tools[0]).value.0, tools[1..], envs[1..]);
      }
    }
  }

  // Only a cell operation takes a call's own key, and it answers with what it made.
  lemma ToolOwn(s: Store, tool: Tool, k: Key)
    requires RunTool(s, tool).Some? && k.part.Own? && k in RunTool(s, tool).value.0.done
    ensures var (s1, d) := RunTool(s, tool).value;
            (k in s.done && s1.done[k] == s.done[k]) || (d == Wrote(s1.done[k]) && s1.done[k] in s1.operations)
  {
    hide Rewritten, Placed;
  }

  // The keys of cell operations are old ones, or of operations the run completed.
  lemma {:induction false} RunOwn(s: Store, tools: seq<Tool>, envs: seq<Env>, k: Key)
    requires |tools| == |envs| && NoLeak(envs) && k.part.Own? && k in Execute(s, tools, envs).store.done
    ensures var run := Execute(s, tools, envs);
            var op := run.store.done[k];
            (k in s.done && op == s.done[k]) || (Wrote(op) in run.dones && op in run.store.operations)
    decreases |tools|
  {
    hide RunTool, Broken;
    if tools != [] {
      if envs[0].Breaks? {
        assert envs[0] in envs;
        BrokenOps(s, tools[0], envs[0].point);
      } else if RunTool(s, tools[0]).Some? {
        var (s1, d) := RunTool(s, tools[0]).value;
        NoLeakRest(envs);
        if envs[0].Fine? {
          RunOwn(s1, tools[1..], envs[1..], k);
          RunKeepsOps(s1, tools[1..], envs[1..]);
        }
        if k in s1.done { ToolOwn(s, tools[0], k); }
      }
    }
  }

  // An operation as the store keeps it.
  predicate Recorded(u: Store, op: Id) {
    op < u.nextId && op in u.operations && u.operations[op].before.Keys == u.operations[op].after.Keys
  }

  lemma UndoSpends(u: Store, d: Done, op: Id)
    requires UndoTool(u, d).Some? && Recorded(u, op)
    ensures Recorded(UndoTool(u, d).value, op)
    ensures Spent(u, op) || d == Wrote(op) ==> Spent(UndoTool(u, d).value, op)
  {
    hide Store.Get;
  }

  lemma {:induction false} AllSpent(u: Store, dones: seq<Done>, op: Id)
    requires UndoAll(u, dones).ok && Recorded(u, op) && (Spent(u, op) || Wrote(op) in dones)
    ensures Spent(UndoAll(u, dones).store, op)
    decreases |dones|
  {
    hide UndoTool, Spent, Recorded;
    if dones != [] {
      var last, rest := dones[|dones| - 1], dones[..|dones| - 1];
      assert dones == rest + [last];
      UndoSpends(u, last, op);
      AllSpent(UndoTool(u, last).value, rest, op);
    }
  }

  lemma IsRecorded(u: Store, op: Id)
    requires u.WellFormed() && op in u.operations
    ensures Recorded(u, op)
  {
  }

  lemma {:induction false} RunShape(s: Store, tools: seq<Tool>, envs: seq<Env>)
    requires s.WellFormed() && |tools| == |envs| && NoLeak(envs)
    ensures Execute(s, tools, envs).store.WellFormed()
    decreases |tools|
  {
    hide RunTool, Broken, Store.WellFormed, Back;
    if tools != [] {
      if envs[0].Breaks? {
        assert envs[0] in envs;
        BrokenIsBack(s, tools[0], envs[0].point);
        BackFacts(s, Broken(s, tools[0], envs[0].point), {});
      } else if RunTool(s, tools[0]).Some? {
        RunToolKeepsShape(s, tools[0]);
        NoLeakRest(envs);
        RunShape(RunTool(s, tools[0]).value.0, tools[1..], envs[1..]);
      }
    }
  }

  // -------- ready again --------

  // An attempt leaves the workbook as it was and ready for the plan; exactly the
  // texts got to are answered under their keys.
  lemma AttemptCompensated(s: Store, tools: seq<Tool>, envs: seq<Env>)
    requires s.WellFormed() && |tools| == |envs| && NoLeak(envs) && Admitted(s, tools) && Ready(s, tools)
    ensures var u := Settle(s, tools, envs);
            && Back(s, u, Touched(Execute(s, tools, envs).dones)) && Ready(u, tools)
            && u.done.Keys == s.done.Keys + Texts(tools[..Got(s, tools, envs)])
  {
    hide Saga.Execute, UndoAll, Back, Admitted, Same, Store.WellFormed, KeysSince, Rested, Ready, Got;
    var run, u := Execute(s, tools, envs), Settle(s, tools, envs);
    CompensationRestores(s, tools, envs);
    RunDone(s, tools, envs);
    UndoKeepsDone(run.store, run.dones);
    ReadyAgain(s, tools, envs);
  }

  lemma ReadyAgain(s: Store, tools: seq<Tool>, envs: seq<Env>)
    requires s.WellFormed() && |tools| == |envs| && NoLeak(envs) && Admitted(s, tools) && Ready(s, tools)
    ensures Ready(Settle(s, tools, envs), tools)
  {
    hide Saga.Execute, UndoAll, Back, Admitted, Same, Store.WellFormed, KeysSince, Rested, Got;
    var run, u := Execute(s, tools, envs), Settle(s, tools, envs);
    CompensationRestores(s, tools, envs);
    RunKeys(s, tools, envs);
    UndoAllKeys(run.store, run.dones);
    UndoKeepsDone(run.store, run.dones);
    RunShape(s, tools, envs);
    forall t | t in tools ensures Rested(u, t) { RestedAgain(s, tools, envs, t); }
  }

  lemma RestedAgain(s: Store, tools: seq<Tool>, envs: seq<Env>, t: Tool)
    requires s.WellFormed() && |tools| == |envs| && NoLeak(envs) && Rested(s, t)
    requires var run := Execute(s, tools, envs);
             var undo := UndoAll(run.store, run.dones);
             && undo.ok && Back(s, undo.store, Touched(run.dones)) && run.store.WellFormed() && undo.store.done == run.store.done
             && KeysSince(s, run.store) && KeysSince(run.store, undo.store)
    ensures Rested(Settle(s, tools, envs), t)
  {
    hide Saga.Execute, UndoAll, Back, Store.WellFormed, KeysSince, Free, Spent;
    var run, u, k := Execute(s, tools, envs), Settle(s, tools, envs), Key(t.key, Own);
    BackFacts(s, u, Touched(run.dones));
    if t.CreateObject? {
      BackIsSame(s, u, Touched(run.dones));
      FreeAgain(s, run.store, u, k);
    }
    if t.WriteCells? && k in u.done {
      RunOwn(s, tools, envs, k);
      var op := u.done[k];
      if k in s.done && op == s.done[k] {
        StillSpent(s, u, Touched(run.dones), op);
      } else {
        IsRecorded(run.store, op);
        AllSpent(run.store, run.dones, op);
      }
    }
  }

  lemma StillSpent(s: Store, u: Store, touched: set<Id>, op: Id)
    requires Back(s, u, touched) && Spent(s, op)
    ensures Spent(u, op)
  {
  }

  lemma FreeAgain(s: Store, t: Store, u: Store, k: Key)
    requires s.WellFormed() && KeysSince(s, t) && KeysSince(t, u) && Same(s, u) && Free(s, k)
    ensures Free(u, k)
  {
    hide Store.Get;
  }

  lemma BackTwice(s: Store, v: Store, u: Store, first: set<Id>, second: set<Id>)
    requires Back(s, v, first) && Back(v, u, second)
    ensures Back(s, u, first + second)
  {
    hide Store.Get, Store.WellFormed;
    forall id | id in s.objects ensures SameObject(s.objects[id], u.objects[id]) {
      assert SameObject(s.objects[id], v.objects[id]) && SameObject(v.objects[id], u.objects[id]);
    }
  }

  lemma BackAdmits(s: Store, v: Store, touched: set<Id>, tools: seq<Tool>)
    requires Back(s, v, touched) && Admitted(s, tools)
    ensures Admitted(v, tools)
  {
    hide Store.Get, Store.WellFormed, DistinctKeys;
    forall t | t in tools && t.UpdateChart? ensures t.chart in v.objects && t.content != v.objects[t.chart].content {
      assert SameObject(s.objects[t.chart], v.objects[t.chart]);
    }
  }

  lemma TextsJoin(tools: seq<Tool>, p: nat, q: nat)
    requires p <= |tools| && q <= |tools|
    ensures Texts(tools[..p]) + Texts(tools[..q]) == Texts(tools[..if p < q then q else p])
  {
    var lo, hi := if p < q then p else q, if p < q then q else p;
    assert forall t :: t in tools[..lo] ==> t in tools[..hi] by { assert tools[..lo] == tools[..hi][..lo]; }
  }

  lemma RunsRest(tools: seq<Tool>, runs: seq<seq<Env>>)
    requires runs != [] && Attempts(tools, runs)
    ensures |runs[0]| == |tools| && NoLeak(runs[0]) && Attempts(tools, runs[1..])
  {
    assert runs[0] in runs;
  }

  // So do any number of attempts.
  lemma {:induction false} Compensated(s: Store, tools: seq<Tool>, runs: seq<seq<Env>>)
    requires s.WellFormed() && Attempts(tools, runs) && Admitted(s, tools) && Ready(s, tools)
    ensures var u := Settled(s, tools, runs);
            && Back(s, u, Updates(s, tools, runs)) && Admitted(u, tools) && Ready(u, tools)
            && u.done.Keys == s.done.Keys + Texts(tools[..Reached(s, tools, runs)])
    decreases |runs|
  {
    hide Settle, Back, Admitted, Ready, Store.WellFormed, Got, NoLeak, Saga.Execute;
    if runs == [] {
      SelfBack(s);
      assert tools[..0] == [] && Texts([]) == {};
    } else {
      RunsRest(tools, runs);
      var v, touched := Settle(s, tools, runs[0]), Touched(Execute(s, tools, runs[0]).dones);
      AttemptCompensated(s, tools, runs[0]);
      BackFacts(s, v, touched);
      BackAdmits(s, v, touched, tools);
      Compensated(v, tools, runs[1..]);
      BackTwice(s, v, Settled(s, tools, runs), touched, Updates(v, tools, runs[1..]));
      TextsJoin(tools, Got(s, tools, runs[0]), Reached(v, tools, runs[1..]));
    }
  }

  lemma TriedFacts(s: Store, tools: seq<Tool>, runs: seq<seq<Env>>)
    requires Tried(s, tools, runs)
    ensures var u := Settled(s, tools, runs);
            && u.WellFormed() && Same(s, u) && s.nextId <= u.nextId && AllFree(u, tools)
            && u.done.Keys == s.done.Keys + Texts(tools[..Reached(s, tools, runs)])
            && Back(s, u, Updates(s, tools, runs))
  {
    hide Settled, Reached, Updates, Back, Admitted, Unused, Ready, Same, Store.WellFormed, AllFree;
    UnusedIsReady(s, tools);
    Compensated(s, tools, runs);
    var u := Settled(s, tools, runs);
    BackFacts(s, u, Updates(s, tools, runs));
    BackIsSame(s, u, Updates(s, tools, runs));
    ReadyIsFree(u, tools);
  }

  lemma ReadyIsFree(s: Store, tools: seq<Tool>)
    requires Ready(s, tools)
    ensures AllFree(s, tools)
  {
    hide Free, Spent;
    forall t | t in tools && t.CreateObject? ensures Free(s, Key(t.key, Own)) { assert Rested(s, t); }
  }

  // -------- a compensated update is refused for good --------

  // Whatever gets through an update found its chart at the revision it names.
  lemma {:induction false} UpdateNeeds(s: Store, tools: seq<Tool>, envs: seq<Env>, i: nat)
    requires s.WellFormed() && |tools| == |envs| && i < |Execute(s, tools, envs).dones| && i < |tools| && tools[i].UpdateChart?
    requires tools[i].chart in s.objects && forall j :: 0 <= j < i && tools[j].UpdateChart? ==> tools[j].chart != tools[i].chart
    ensures s.objects[tools[i].chart].revision == tools[i].expected
    decreases i
  {
    hide RunTool, Broken, Store.WellFormed;
    if i == 0 {
      UpdateFinds(s, tools[0]);
    } else {
      var s1 := RunTool(s, tools[0]).value.0;
      RunToolKeepsShape(s, tools[0]);
      RunToolAdds(s, tools[0]);
      UpdateNeeds(s1, tools[1..], envs[1..], i - 1);
    }
  }

  lemma UpdateFinds(s: Store, tool: Tool)
    requires tool.UpdateChart? && RunTool(s, tool).Some?
    ensures s.objects[tool.chart].revision == tool.expected
  {
  }

  lemma {:induction false} TouchedBy(s: Store, tools: seq<Tool>, envs: seq<Env>, i: nat)
    requires |tools| == |envs| && i < Got(s, tools, envs) && tools[i].UpdateChart?
    ensures i < |Execute(s, tools, envs).dones| && tools[i].chart in Touched(Execute(s, tools, envs).dones)
    decreases i
  {
    hide Broken, RunTool;
    var (s1, d) := RunTool(s, tools[0]).value;
    var rest := if envs[0].BookkeepingFails? then [] else Execute(s1, tools[1..], envs[1..]).dones;
    assert Execute(s, tools, envs).dones == [d] + rest;
    TouchedFirst(d, rest);
    if i == 0 {
      UpdateTouches(s, tools[0]);
    } else {
      assert tools[1..][i - 1] == tools[i];
      TouchedBy(s1, tools[1..], envs[1..], i - 1);
    }
  }

  lemma UpdateTouches(s: Store, tool: Tool)
    requires tool.UpdateChart? && RunTool(s, tool).Some?
    ensures tool.chart in Touched([RunTool(s, tool).value.1])
  {
    var d := RunTool(s, tool).value.1;
    assert d in [d];
  }

  // An update got to leaves its chart past the revision the plan names.
  lemma {:induction false} UpdateMoved(s: Store, tools: seq<Tool>, runs: seq<seq<Env>>, i: nat)
    requires s.WellFormed() && Attempts(tools, runs) && Admitted(s, tools) && Ready(s, tools)
    requires i < Reached(s, tools, runs) && tools[i].UpdateChart?
    ensures var u := Settled(s, tools, runs); tools[i].chart in u.objects && u.objects[tools[i].chart].revision > tools[i].expected
    decreases |runs|
  {
    hide Settle, Back, Admitted, Ready, Store.WellFormed, Got, NoLeak, Saga.Execute;
    RunsRest(tools, runs);
    var v, touched, chart := Settle(s, tools, runs[0]), Touched(Execute(s, tools, runs[0]).dones), tools[i].chart;
    AttemptCompensated(s, tools, runs[0]);
    BackFacts(s, v, touched);
    BackAdmits(s, v, touched, tools);
    if i < Got(s, tools, runs[0]) {
      TouchedBy(s, tools, runs[0], i);
      UpdatesApart(s, tools, i);
      UpdateNeeds(s, tools, runs[0], i);
      MovedOn(s, v, touched, chart);
      Compensated(v, tools, runs[1..]);
      NeverBack(v, Settled(s, tools, runs), Updates(v, tools, runs[1..]), chart);
    } else {
      UpdateMoved(v, tools, runs[1..], i);
    }
  }

  lemma UpdatesApart(s: Store, tools: seq<Tool>, i: nat)
    requires Admitted(s, tools) && i < |tools| && tools[i].UpdateChart?
    ensures tools[i].chart in s.objects && forall j :: 0 <= j < i && tools[j].UpdateChart? ==> tools[j].chart != tools[i].chart
  {
    assert tools[i] in tools;
  }

  lemma MovedOn(s: Store, u: Store, touched: set<Id>, chart: Id)
    requires Back(s, u, touched) && chart in s.objects && chart in touched
    ensures chart in u.objects && u.objects[chart].revision > s.objects[chart].revision
  {
    hide Store.WellFormed, Store.Get;
  }

  lemma NeverBack(s: Store, u: Store, touched: set<Id>, chart: Id)
    requires Back(s, u, touched) && chart in s.objects
    ensures chart in u.objects && u.objects[chart].revision >= s.objects[chart].revision
  {
    hide Store.WellFormed, Store.Get;
  }

  lemma UpdateIsRefused(s: Store, tools: seq<Tool>, runs: seq<seq<Env>>, i: nat)
    requires Tried(s, tools, runs) && i < Reached(s, tools, runs) && tools[i].UpdateChart?
    ensures !After(Settled(s, tools, runs), tools).ok
  {
    hide Saga.Execute, Settled, Reached, Store.WellFormed, Admitted, Ready, Unused, Back, Updates;
    var u := Settled(s, tools, runs);
    UnusedIsReady(s, tools);
    UpdateMoved(s, tools, runs, i);
    Compensated(s, tools, runs);
    BackFacts(s, u, Updates(s, tools, runs));
    UpdatesApart(u, tools, i);
    if After(u, tools).ok {
      OkCount(u, tools, AllFine(|tools|));
      UpdateNeeds(u, tools, AllFine(|tools|), i);
      assert false;
    }
  }

  // -------- the next run is a run without those texts --------

  ghost predicate NoUpdate(tools: seq<Tool>, q: nat)
    requires q <= |tools|
  {
    forall i :: 0 <= i < q ==> !tools[i].UpdateChart?
  }

  lemma {:induction false} NothingTouched(s: Store, tools: seq<Tool>, envs: seq<Env>)
    requires |tools| == |envs| && NoUpdate(tools, Got(s, tools, envs))
    ensures Touched(Execute(s, tools, envs).dones) == {}
    decreases |tools|
  {
    hide Broken, RunTool;
    if tools != [] && !envs[0].Breaks? && RunTool(s, tools[0]).Some? {
      var (s1, d) := RunTool(s, tools[0]).value;
      assert !tools[0].UpdateChart?;
      NotUpdated(s, tools[0]);
      if envs[0].BookkeepingFails? {
        assert Execute(s, tools, envs).dones == [d];
      } else {
        forall i | 0 <= i < Got(s1, tools[1..], envs[1..]) ensures !tools[1..][i].UpdateChart? { assert tools[1..][i] == tools[i + 1]; }
        NothingTouched(s1, tools[1..], envs[1..]);
        TouchedFirst(d, Execute(s1, tools[1..], envs[1..]).dones);
        assert Touched([d]) == {};
      }
    }
  }

  lemma {:induction false} NothingMoved(s: Store, tools: seq<Tool>, runs: seq<seq<Env>>)
    requires Attempts(tools, runs) && NoUpdate(tools, Reached(s, tools, runs))
    ensures Updates(s, tools, runs) == {}
    decreases |runs|
  {
    hide Settle, Got, Saga.Execute;
    if runs != [] {
      RunsRest(tools, runs);
      NothingTouched(s, tools, runs[0]);
      NothingMoved(Settle(s, tools, runs[0]), tools, runs[1..]);
    }
  }

  lemma NotUpdated(s: Store, tool: Tool)
    requires RunTool(s, tool).Some? && !tool.UpdateChart?
    ensures !RunTool(s, tool).value.1.Updated?
  {
    hide WriteReport, Store.Write, Rewritten;
  }

  lemma StartsMatched(s: Store, x: Store, u: Store, made: set<Key>)
    requires s.WellFormed() && u.WellFormed() && s.nextId <= u.nextId && Back(s, u, {})
    requires x == s.(done := x.done) && u.done.Keys == x.done.Keys + made
    ensures Matched(s.nextId, Unnamed(), x, u, made)
  {
    hide Alike, Store.WellFormed;
    forall c ensures x.Get(c) == s.Get(c) {}
    assert Same(x, u);
    SameLooksAlike(s.nextId, x, u);
    assert x.WellFormed() by { DoneShape(s, x.done); }
    assert Grounded(s.nextId, x) by { IsGrounded(s); }
  }

  lemma DoneShape(s: Store, done: map<Key, Id>)
    requires s.WellFormed()
    ensures s.(done := done).WellFormed()
  {
  }

  lemma IsGrounded(s: Store)
    requires s.WellFormed()
    ensures Grounded(s.nextId, s)
  {
  }

  lemma PlanIsOld(s: Store, tools: seq<Tool>)
    requires s.WellFormed() && Admitted(s, tools) && Unused(s, tools)
    ensures AllOld(s.nextId, tools) && DistinctKeys(tools) && forall done :: AllFree(s.(done := done), tools)
  {
    forall done, t | t in tools && t.CreateObject? ensures Free(s.(done := done), Key(t.key, Own)) { assert Key(t.key, Own) !in s.keyed; }
  }

  lemma {:induction false} NothingMade(s: Store, tools: seq<Tool>)
    ensures Unnoticed(s, {}, tools)
    decreases |tools|
  {
    hide Changes, RunTool;
    if tools != [] && RunTool(s, tools[0]).Some? { NothingMade(RunTool(s, tools[0]).value.0, tools[1..]); }
  }

  // The store on which only the texts of the calls got to count as written.
  function Silenced(s: Store, tools: seq<Tool>, runs: seq<seq<Env>>): Store
    requires Attempts(tools, runs)
  {
    s.(done := Settled(s, tools, runs).done)
  }

  // The next run goes through if and only if it would on the store as it was with
  // those texts left out, and leaves what that leaves.
  lemma NextRun(s: Store, tools: seq<Tool>, runs: seq<seq<Env>>)
    requires Tried(s, tools, runs) && NoUpdate(tools, Reached(s, tools, runs))
    ensures var u, x := Settled(s, tools, runs), Silenced(s, tools, runs);
            && (After(u, tools).ok <==> After(x, tools).ok)
            && (After(u, tools).ok ==> SameEffect(s.nextId, After(x, tools).store, After(u, tools).store))
  {
    hide Saga.Execute, Settled, Reached, Updates, Back, Same, Store.WellFormed, Admitted, Unused, Matched, SameEffect, AllFree;
    var u, x := Settled(s, tools, runs), Silenced(s, tools, runs);
    TriedFacts(s, tools, runs);
    NothingMoved(s, tools, runs);
    StartsMatched(s, x, u, {});
    PlanIsOld(s, tools);
    NothingMade(x, tools);
    RunMatched(s.nextId, Unnamed(), x, u, {}, tools);
  }

  // So a further approval has the plan's effect if and only if no update was got
  // to and leaving out the texts got to makes no difference.
  lemma EffectiveIff(s: Store, tools: seq<Tool>, runs: seq<seq<Env>>)
    requires Tried(s, tools, runs)
    ensures Effective(s, tools, Settled(s, tools, runs))
       <==> && After(s, tools).ok && NoUpdate(tools, Reached(s, tools, runs))
            && After(Silenced(s, tools, runs), tools).ok
            && SameEffect(s.nextId, After(s, tools).store, After(Silenced(s, tools, runs), tools).store)
  {
    hide Saga.Execute, Settled, Reached, SameEffect, Admitted, Unused, Store.WellFormed;
    var u, x := Settled(s, tools, runs), Silenced(s, tools, runs);
    if !NoUpdate(tools, Reached(s, tools, runs)) {
      var i :| 0 <= i < Reached(s, tools, runs) && tools[i].UpdateChart?;
      UpdateIsRefused(s, tools, runs, i);
    } else {
      NextRun(s, tools, runs);
      if After(s, tools).ok && After(u, tools).ok {
        var whole, first, second := After(s, tools).store, After(x, tools).store, After(u, tools).store;
        if SameEffect(s.nextId, whole, second) {
          EffectSymmetric(s.nextId, first, second);
          EffectTransitive(s.nextId, whole, second, first);
        }
        if SameEffect(s.nextId, whole, first) { EffectTransitive(s.nextId, whole, first, second); }
      }
    }
  }

  // It has it whenever every call got to creates an object or, at its turn, changes
  // no cell.
  lemma HarmlessIsEffective(s: Store, tools: seq<Tool>, runs: seq<seq<Env>>)
    requires Tried(s, tools, runs) && NoUpdate(tools, Reached(s, tools, runs)) && After(s, tools).ok
    requires Unnoticed(s, Texts(tools[..Reached(s, tools, runs)]), tools)
    ensures Effective(s, tools, Settled(s, tools, runs))
  {
    hide Saga.Execute, Settled, Reached, Updates, Back, Same, Store.WellFormed, Admitted, Unused, Matched, SameEffect, AllFree, Unnoticed;
    var u, texts := Settled(s, tools, runs), Texts(tools[..Reached(s, tools, runs)]);
    TriedFacts(s, tools, runs);
    NothingMoved(s, tools, runs);
    assert s == s.(done := s.done);
    StartsMatched(s, s, u, texts);
    PlanIsOld(s, tools);
    RunMatched(s.nextId, Unnamed(), s, u, texts, tools);
  }
}
