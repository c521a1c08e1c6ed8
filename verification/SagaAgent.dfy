/**
  Approving an agent's plan.  The calls are updated in memory as they run; the
  action's own list is written once, after the last of them.
*/
module SagaAgent {
  import opened CellAddress
  import opened Saga
  import opened SagaRetry

  datatype Status = Waiting | Completed | Failed | Cancelled

  // The action's status under the caller's key; what failed or was undone is
  // closed to any approval.
  datatype Phase = Planned | Applying | Applied | Closed

  datatype Outcome = AlreadyApplied | Refused | Done | Unfinished | Restored | Stuck

  datatype Call = Call(tool: Tool, status: Status, result: Option<Done>)

  // Completed calls come first, and each remembers what it did.
  predicate Orderly(calls: seq<Call>) {
    forall i :: 0 <= i < |calls| && calls[i].status.Completed? ==>
                  calls[i].result.Some? && forall j :: 0 <= j < i ==> calls[j].status.Completed?
  }

  function Dones(calls: seq<Call>): (dones: seq<Done>)
    ensures |dones| <= |calls|
  {
    if calls == [] || !calls[0].status.Completed? || calls[0].result.None? then []
    else [calls[0].result.value] + Dones(calls[1..])
  }

  function Tools(calls: seq<Call>): (tools: seq<Tool>)
    ensures |tools| == |calls|
  {
    seq(|calls|, i requires 0 <= i < |calls| => calls[i].tool)
  }

  // `done` is what the completed calls at the front did, and no others are.
  ghost predicate Shows(calls: seq<Call>, tools: seq<Tool>, done: seq<Done>) {
    && |calls| == |tools| && |done| <= |calls|
    && (forall i :: 0 <= i < |calls| ==> calls[i].tool == tools[i])
    && (forall i :: 0 <= i < |done| ==> calls[i].status.Completed? && calls[i].result == Some(done[i]))
    && (forall i :: |done| <= i < |calls| ==> !calls[i].status.Completed?)
  }

  lemma {:induction false} ShowsDones(calls: seq<Call>, tools: seq<Tool>, done: seq<Done>)
    requires Shows(calls, tools, done)
    ensures Dones(calls) == done && Orderly(calls) && Tools(calls) == tools
  {
    if done != [] {
      assert calls[0].status.Completed?;
      ShowsDones(calls[1..], tools[1..], done[1..]);
      assert done == [done[0]] + done[1..];
    }
  }

  lemma {:induction false} OrderlySplit(calls: seq<Call>)
    requires Orderly(calls)
    ensures Shows(calls, Tools(calls), Dones(calls))
  {
    if calls != [] && calls[0].status.Completed? {
      OrderlySplit(calls[1..]);
      var k := |Dones(calls)|;
      forall i | k <= i < |calls| ensures !calls[i].status.Completed? { assert calls[i] == calls[1..][i - 1]; }
    } else if calls != [] {
      forall i | 0 <= i < |calls| ensures !calls[i].status.Completed? { }
    }
  }

  lemma ShowsNext(calls: seq<Call>, tools: seq<Tool>, done: seq<Done>, i: nat)
    requires Shows(calls, tools, done) && i < |calls|
    ensures |calls| == |tools| && calls[i].tool == tools[i] && (calls[i].status.Completed? <==> i < |done|)
  {
  }

  // The first call that is not completed changes.
  lemma ShowsUpdate(calls: seq<Call>, tools: seq<Tool>, done: seq<Done>, i: nat, call: Call, more: seq<Done>)
    requires Shows(calls, tools, done) && |done| == i < |calls| && call.tool == tools[i]
    requires if call.status.Completed? then call.result.Some? && more == [call.result.value] else more == []
    ensures Shows(calls[i := call], tools, done + more)
  {
  }

  // `rest` follows `done`, and both together are `total`.
  predicate Continues(total: Run, done: seq<Done>, rest: Run) {
    total == Run(rest.store, done + rest.dones, rest.ok)
  }

  lemma StepRun(total: Run, s: Store, tools: seq<Tool>, envs: seq<Env>, i: nat, done: seq<Done>)
    requires i < |tools| == |envs| && Continues(total, done, Execute(s, tools[i..], envs[i..]))
    ensures if envs[i].Breaks? then total == Run(Broken(s, tools[i], envs[i].point), done, false)
            else match RunTool(s, tools[i])
                 case None => total == Run(s, done, false)
                 case Some((s1, d)) =>
                   if envs[i].BookkeepingFails? then total == Run(s1, done + [d], false)
                   else Continues(total, done + [d], Execute(s1, tools[i + 1..], envs[i + 1..]))
  {
    hide RunTool, Broken;
    assert tools[i..][1..] == tools[i + 1..] && envs[i..][1..] == envs[i + 1..];
    assert done + [] == done;
    if !envs[i].Breaks? && RunTool(s, tools[i]).Some? {
      var (s1, d) := RunTool(s, tools[i]).value;
      var rest := Execute(s1, tools[i + 1..], envs[i + 1..]).dones;
      assert done + ([d] + rest) == (done + [d]) + rest;
    }
  }

  lemma AtStart(total: Run)
    ensures Continues(total, [], total)
  {
    assert [] + total.dones == total.dones;
  }

  lemma AtEnd(total: Run, done: seq<Done>, s: Store, tools: seq<Tool>, envs: seq<Env>)
    requires |tools| == |envs| && Continues(total, done, Execute(s, tools[|tools|..], envs[|envs|..]))
    ensures total == Run(s, done, true)
  {
    assert tools[|tools|..] == [] && done + [] == done;
  }

  // Stored calls have either all been completed or none of them has.
  predicate Stored(calls: seq<Call>) {
    || (forall i :: 0 <= i < |calls| ==> !calls[i].status.Completed?)
    || (forall i :: 0 <= i < |calls| ==> calls[i].status.Completed? && calls[i].result.Some?)
  }

  class Agent {
    var store: Store
    // What the action's row holds of the calls, and the calls being worked on.
    var column: seq<Call>
    var calls: array<Call>
    var phase: Phase
    // The cells to change before the tools run.
    const change: Option<Tool>

    ghost predicate Valid()
      reads this
    {
      Stored(column) && (change.Some? ==> change.value.WriteCells?)
    }

    constructor (store: Store, tools: seq<Tool>, change: Option<Tool>)
      requires change.Some? ==> change.value.WriteCells?
      ensures Valid() && this.store == store && this.change == change && phase == Planned
      ensures Tools(column) == tools && Dones(column) == []
    {
      this.store := store;
      this.change := change;
      phase := Planned;
      column := seq(|tools|, i requires 0 <= i < |tools| => Call(tools[i], Waiting, None));
      calls := new Call[0];
    }

    // One call: `done` is what it did, if it did something; `stop` ends the run.
    method RunCall(i: nat, env: Env) returns (done: Option<Done>, stop: bool)
      requires i < calls.Length && !calls[i].status.Completed?
      modifies this`store, calls
      ensures var r := RunTool(old(store), old(calls[i].tool));
              if env.Breaks? then done == None && stop && store == Broken(old(store), old(calls[i].tool), env.point)
              else match r
                   case None => done == None && stop && store == old(store)
                   case Some((s1, d)) => done == Some(d) && store == s1 && (stop <==> env.BookkeepingFails?)
      ensures calls[i].tool == old(calls[i].tool) && (calls[i].status.Completed? <==> done.Some?)
      ensures done.Some? ==> calls[i].result == done
      ensures calls[..] == old(calls[..])[i := calls[i]]
    {
      hide RunTool, Broken;
      var tool := calls[i].tool;
      var r := RunTool(store, tool);
      if env.Breaks? || r.None? {
        if env.Breaks? { store := Broken(store, tool, env.point); }
        if env.Breaks? || !tool.UpdateChart? {
          calls[i] := calls[i].(status := Failed);
        }
        return None, true;
      }
      store := r.value.0;
      calls[i] := Call(tool, Completed, Some(r.value.1));
      return Some(r.value.1), env.BookkeepingFails?;
    }

    // Every call not completed yet, in order, until one fails.
    method RunTools(envs: seq<Env>, saved: bool) returns (ok: bool)
      requires Orderly(calls[..]) && |envs| == calls.Length
      modifies this`store, calls
      ensures Orderly(calls[..]) && Tools(calls[..]) == old(Tools(calls[..]))
      ensures var k := |old(Dones(calls[..]))|;
              var run := Execute(old(store), Tools(calls[..])[k..], envs[k..]);
              && store == run.store && Dones(calls[..]) == old(Dones(calls[..])) + run.dones
              && (ok <==> run.ok && saved)
    {
      hide RunTool, Broken, Execute, Dones, Orderly, Tools, Shows, Continues;
      OrderlySplit(calls[..]);
      ghost var tools, done := Tools(calls[..]), Dones(calls[..]);
      ghost var k := |done|;
      ghost var total := Execute(store, tools[k..], envs[k..]);
      var i := 0;
      assert done[k..] == [];
      AtStart(total);
      while i < calls.Length
        invariant 0 <= i <= calls.Length && |done| == if i < k then k else i
        invariant Shows(calls[..], tools, done) && done[..k] == old(Dones(calls[..]))
        invariant Continues(total, done[k..], Execute(store, tools[|done|..], envs[|done|..]))
      {
        if !calls[i].status.Completed? {
          ShowsNext(calls[..], tools, done, i);
          StepRun(total, store, tools, envs, i, done[k..]);
          label L:
          var r, stop := RunCall(i, envs[i]);
          ghost var more := if r.Some? then [r.value] else [];
          ShowsUpdate(old@L(calls[..]), tools, done, i, calls[i], more);
          assert (done + more)[k..] == done[k..] + more && done[k..] + [] == done[k..];
          done := done + more;
          if stop {
            ShowsDones(calls[..], tools, done);
            return false;
          }
        } else {
          ShowsNext(calls[..], tools, done, i);
        }
        i := i + 1;
      }
      ShowsDones(calls[..], tools, done);
      AtEnd(total, done[k..], store, tools, envs);
      ok := saved;
    }

    // The completed calls, last first; the calls themselves are left as they are.
    method UndoCompleted() returns (ok: bool)
      requires Orderly(calls[..])
      modifies this`store
      ensures Undone(store, ok) == UndoAll(old(store), Dones(calls[..]))
    {
      hide UndoTool, Dones, Tools, Orderly;
      OrderlySplit(calls[..]);
      ghost var done := Dones(calls[..]);
      var i := calls.Length;
      assert done[..|done|] == done;
      while i > 0
        invariant 0 <= i <= calls.Length
        invariant UndoAll(old(store), done) == UndoAll(store, done[..if i < |done| then i else |done|])
      {
        i := i - 1;
        if calls[i].status.Completed? {
          assert calls[..][i] == calls[i];
          assert done[..i + 1][i] == calls[i].result.value && done[..i + 1][..i] == done[..i];
          var r := UndoTool(store, calls[i].result.value);
          if r.None? { return false; }
          store := r.value;
        }
      }
      ok := true;
    }

    // Run the tools; if that fails, undo the completed ones and cancel them.
    method ExecuteTools(envs: seq<Env>, saved: bool) returns (ok: bool, undone: bool)
      requires Orderly(calls[..]) && |envs| == calls.Length
      modifies this`store, calls
      ensures Orderly(calls[..]) && Tools(calls[..]) == old(Tools(calls[..]))
      ensures var before := old(Dones(calls[..]));
              var run := Execute(old(store), Tools(calls[..])[|before|..], envs[|before|..]);
              var undo := UndoAll(run.store, before + run.dones);
              && (ok <==> run.ok && saved)
              && (ok ==> store == run.store && Dones(calls[..]) == before + run.dones)
              && (!ok ==> Undone(store, undone) == undo)
              && (!ok ==> Dones(calls[..]) == if undone then [] else before + run.dones)
    {
      hide UndoTool, Execute, UndoAll, Dones, Orderly, Tools;
      ok := RunTools(envs, saved);
      undone := false;
      if ok { return; }
      undone := UndoCompleted();
      if !undone { return; }
      OrderlySplit(calls[..]);
      ghost var tools, restored := Tools(calls[..]), store;
      var i := 0;
      while i < calls.Length
        invariant 0 <= i <= calls.Length && store == restored
        invariant forall j :: 0 <= j < calls.Length ==> calls[j].tool == tools[j]
        invariant forall j :: 0 <= j < i ==> !calls[j].status.Completed?
      {
        if calls[i].status.Completed? { calls[i] := calls[i].(status := Cancelled); }
        i := i + 1;
      }
      ShowsDones(calls[..], tools, []);
    }

    // Approving: what is already applied or closed is not touched.  Otherwise the
    // cells change, then the stored calls that are not completed run.
    method Approve(envs: seq<Env>, saved: bool, finished: bool) returns (outcome: Outcome)
      requires Valid() && |envs| == |column|
      modifies this
      ensures Valid()
      ensures outcome.AlreadyApplied? <==> old(phase).Applied?
      ensures outcome.Refused? <==> old(phase).Closed? || (!old(phase).Applied? && change.Some? && RunTool(old(store), change.value).None?)
      ensures outcome.AlreadyApplied? || outcome.Refused? ==> store == old(store) && column == old(column)
      ensures outcome.AlreadyApplied? ==> phase.Applied?
      ensures outcome.Refused? ==> phase.Closed?
      ensures !outcome.AlreadyApplied? && !outcome.Refused? ==>
                && Begins(old(store), change)
                && var before, tools := Dones(old(column)), Tools(old(column));
                var run := Execute(Base(old(store), change), tools[|before|..], envs[|before|..]);
                var undo := UndoAll(run.store, before + run.dones);
                if run.ok && saved then
                  && store == run.store && Tools(column) == tools && Dones(column) == before + run.dones && |Dones(column)| == |column|
                  && phase == (if change.Some? || finished then Applied else Applying)
                  && outcome == (if change.Some? || finished then Done else Unfinished)
                else
                  && store == Uncell(undo.store, old(store), change) && column == old(column)
                  && phase == (if change.Some? then Closed else Applying)
                  && outcome == if undo.ok then Restored else Stuck
      // The first approval of an admitted plan never gets stuck, and leaves the
      // workbook as it was when it fails.
      ensures Dones(old(column)) == [] && old(store).WellFormed() && NoLeak(envs)
              && Admitted(old(store), Plan(change, Tools(old(column)))) && Unused(old(store), Plan(change, Tools(old(column))))
              ==> !outcome.Stuck? && (outcome.Restored? || outcome.Refused? ==> Same(old(store), store))
    {
      hide RunTool, UndoTool, Execute, Saga.Execute, UndoAll, Dones, Orderly, Tools, Same, Store.WellFormed, Admitted, Unused, Stored;
      ghost var start := store;
      if phase.Applied? {
        SameSelf(start);
        return AlreadyApplied;
      }
      if phase.Closed? {
        SameSelf(start);
        return Refused;
      }
      calls := new Call[|column|](i requires 0 <= i < |column| reads this => column[i]);
      assert calls[..] == column;
      StoredOrderly(column);
      var op := None;
      if change.Some? {
        var r := RunTool(store, change.value);
        SameSelf(start);
        if r.None? {
          phase := Closed;
          return Refused;
        }
        WritesWrote(store, change.value);
        store, op := r.value.0, Some(r.value.1);
      }
      ghost var base, tools, before := store, Tools(column), Dones(column);
      var ok, undone := ExecuteTools(envs, saved);
      if ok {
        AllCompleted(calls[..], base, tools, before, envs);
        column := calls[..];
        phase := if change.Some? || finished then Applied else Applying;
        return if change.Some? || finished then Done else Unfinished;
      }
      if op.Some? {
        WroteUndoes(store, op.value);
        store := UndoTool(store, op.value).value;
      }
      phase := if change.Some? then Closed else Applying;
      outcome := if undone then Restored else Stuck;
      if before == [] && start.WellFormed() && NoLeak(envs) && Admitted(start, Plan(change, tools)) && Unused(start, Plan(change, tools)) {
        FirstApproval(start, change, tools, envs);
        assert tools[0..] == tools && envs[0..] == envs;
        assert forall d: seq<Saga.Done> :: [] + d == d;
      }
    }
  }

  // The cell operation, if the plan has one.
  predicate Begins(s: Store, change: Option<Tool>) { change.Some? ==> RunTool(s, change.value).Some? }

  function Base(s: Store, change: Option<Tool>): Store
    requires Begins(s, change)
  {
    if change.Some? then RunTool(s, change.value).value.0 else s
  }

  // The cell operation undone again.
  function Uncell(t: Store, s: Store, change: Option<Tool>): Store
    requires Begins(s, change)
  {
    if change.None? then t
    else match UndoTool(t, RunTool(s, change.value).value.1)
         case None => t
         case Some(u) => u
  }

  function Plan(change: Option<Tool>, tools: seq<Tool>): seq<Tool> {
    (if change.Some? then [change.value] else []) + tools
  }

  lemma SameSelf(s: Store)
    ensures Same(s, s)
  {
  }

  lemma WritesWrote(s: Store, tool: Tool)
    requires tool.WriteCells? && RunTool(s, tool).Some?
    ensures RunTool(s, tool).value.1.Wrote?
  {
  }

  lemma WroteUndoes(s: Store, d: Saga.Done)
    requires d.Wrote?
    ensures UndoTool(s, d).Some?
  {
  }

  lemma StoredOrderly(calls: seq<Call>)
    requires Stored(calls)
    ensures Orderly(calls)
  {
  }

  // After a run that went through, every call is completed.
  lemma AllCompleted(calls: seq<Call>, base: Store, tools: seq<Tool>, before: seq<Saga.Done>, envs: seq<Env>)
    requires Orderly(calls) && Tools(calls) == tools && |before| <= |tools| == |envs|
    requires var run := Execute(base, tools[|before|..], envs[|before|..]); run.ok && Dones(calls) == before + run.dones
    ensures Stored(calls) && |Dones(calls)| == |calls|
  {
    OkCount(base, tools[|before|..], envs[|before|..]);
    OrderlySplit(calls);
  }

  // The plan with its cell operation as a first step.
  lemma FirstApproval(s: Store, change: Option<Tool>, tools: seq<Tool>, envs: seq<Env>)
    requires s.WellFormed() && |tools| == |envs| && NoLeak(envs) && Begins(s, change) && (change.Some? ==> change.value.WriteCells?)
    requires Admitted(s, Plan(change, tools)) && Unused(s, Plan(change, tools))
    ensures var run := Execute(Base(s, change), tools, envs);
            var undo := UndoAll(run.store, run.dones);
            undo.ok && Same(s, Uncell(undo.store, s, change))
  {
    hide RunTool, UndoTool, Store.WellFormed, Same, Admitted, Unused, UndoAll, NoLeak;
    if change.None? {
      assert [] + tools == tools;
      UnusedIsReady(s, tools);
      CompensationRestores(s, tools, envs);
    } else {
      var plan, all := Plan(change, tools), [Fine] + envs;
      assert plan[0] == change.value && plan[1..] == tools && all[1..] == envs;
      FineFirst(envs);
      UnusedIsReady(s, plan);
      CompensationRestores(s, plan, all);
      var (base, d) := RunTool(s, change.value).value;
      var run := Execute(base, tools, envs);
      assert Execute(s, plan, all) == Run(run.store, [d] + run.dones, run.ok);
      UndoAllFirst(run.store, d, run.dones);
      WritesWrote(s, change.value);
      WroteUndoes(UndoAll(run.store, run.dones).store, d);
    }
  }

  lemma FineFirst(envs: seq<Env>)
    requires NoLeak(envs)
    ensures NoLeak([Fine] + envs)
  {
  }

  // A list stored as completed that fails once more, at the last statement, is
  // undone as a whole.
  lemma StoredRetryRestores(s: Store, tools: seq<Tool>)
    requires s.WellFormed() && Admitted(s, tools) && Unused(s, tools) && After(s, tools).ok
    ensures var run := After(s, tools);
            var undo := UndoAll(run.store, run.dones);
            undo.ok && Same(s, undo.store)
  {
    NoLeakFine(|tools|);
    UnusedIsReady(s, tools);
    CompensationRestores(s, tools, AllFine(|tools|));
  }
}
