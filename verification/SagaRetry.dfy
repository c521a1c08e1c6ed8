/**
  Approving a plan again.  What the calls of a plan did is written to the action
  only after the last of them, so a plan whose process stopped on the way starts
  again from its first call: creations and cell operations answer under their
  keys with what they made, chart updates and reports are refused.
*/
module SagaRetry {
  import opened CellAddress
  import opened Saga

  function AllFine(n: nat): seq<Env> { seq(n, _ => Fine) }

  // The store after the first tools went through.
  function After(s: Store, tools: seq<Tool>): Run { Execute(s, tools, AllFine(|tools|)) }

  lemma AfterStep(s: Store, tools: seq<Tool>)
    requires tools != [] && After(s, tools).ok
    ensures RunTool(s, tools[0]).Some?
    ensures var (s1, d) := RunTool(s, tools[0]).value;
            var rest := After(s1, tools[1..]);
            rest.ok && After(s, tools) == Run(rest.store, [d] + rest.dones, true)
  {
    hide RunTool;
    assert AllFine(|tools|)[1..] == AllFine(|tools| - 1);
  }

  lemma AllFineIs(n: nat)
    ensures |AllFine(n)| == n && (n > 0 ==> AllFine(n)[0] == Fine && AllFine(n)[1..] == AllFine(n - 1)) && (n == 0 ==> AllFine(n) == [])
  {
  }

  // Running the first tools, and then the rest, is running them all.
  lemma {:induction false} InTwoParts(s: Store, tools: seq<Tool>, k: nat, envs: seq<Env>)
    requires k <= |tools| && |envs| == |tools| - k && After(s, tools[..k]).ok
    ensures var first := After(s, tools[..k]);
            var rest := Execute(first.store, tools[k..], envs);
            Execute(s, tools, AllFine(k) + envs) == Run(rest.store, first.dones + rest.dones, rest.ok) && |first.dones| == k
    decreases k
  {
    hide RunTool, Broken, AllFine;
    AllFineIs(k);
    if k == 0 {
      assert tools[..0] == [] && tools[0..] == tools && AllFine(0) + envs == envs;
      assert forall r: Run :: [] + r.dones == r.dones;
    } else {
      AfterStep(s, tools[..k]);
      var (s1, d) := RunTool(s, tools[..k][0]).value;
      var later := tools[1..];
      assert tools[..k][1..] == later[..k - 1] && tools[k..] == later[k - 1..];
      assert (AllFine(k) + envs)[1..] == AllFine(k - 1) + envs;
      InTwoParts(s1, later, k - 1, envs);
      var first := After(s1, later[..k - 1]);
      var rest := Execute(first.store, tools[k..], envs);
      assert ([d] + first.dones) + rest.dones == [d] + (first.dones + rest.dones);
    }
  }

  lemma {:induction false} OkCount(s: Store, tools: seq<Tool>, envs: seq<Env>)
    requires |tools| == |envs| && Execute(s, tools, envs).ok
    ensures |Execute(s, tools, envs).dones| == |tools|
    decreases |tools|
  {
    hide RunTool, Broken;
    if tools != [] { OkCount(RunTool(s, tools[0]).value.0, tools[1..], envs[1..]); }
  }

  // -------- what a run leaves in the store --------

  ghost predicate HasKey(tools: seq<Tool>, k: Key) { exists t :: t in tools && t.key == k.tool }

  // Everything in s that the tools do not update is still there, under its key.
  lemma {:induction false} RunKeeps(s: Store, tools: seq<Tool>)
    requires s.WellFormed() && Admitted(s, tools) && Unused(s, tools) && After(s, tools).ok
    ensures var t := After(s, tools).store;
            && t.WellFormed() && s.nextId <= t.nextId
            && (forall id :: id in s.objects ==> id in t.objects && (id !in UpdateIds(tools) ==> t.objects[id] == s.objects[id]))
            && (forall id :: id in s.sheets ==> id in t.sheets && t.sheets[id] == s.sheets[id])
            && (forall k :: k in s.keyed && !HasKey(tools, k) ==> k in t.keyed && t.keyed[k] == s.keyed[k])
            && (forall k :: k in s.done && !HasKey(tools, k) ==> k in t.done && t.done[k] == s.done[k])
    decreases |tools|
  {
    hide RunTool, Store.WellFormed, Admitted, Unused, HasKey, UpdateIds, Execute, Saga.Execute;
    if tools == [] {
      Nothing(s);
    } else {
      AfterStep(s, tools);
      var s1 := RunTool(s, tools[0]).value.0;
      RunToolKeepsShape(s, tools[0]);
      RunToolAdds(s, tools[0]);
      RunToolKeys(s, tools[0]);
      AdmittedRest(s, tools);
      RunKeeps(s1, tools[1..]);
      KeysSplit(tools);
      UpdatesSplit(tools);
    }
  }

  lemma Nothing(s: Store)
    ensures After(s, []) == Run(s, [], true)
  {
  }

  lemma KeysSplit(tools: seq<Tool>)
    requires tools != []
    ensures forall k :: HasKey(tools, k) <==> k.tool == tools[0].key || HasKey(tools[1..], k)
  {
    assert forall t :: t in tools <==> t == tools[0] || t in tools[1..];
    forall k ensures HasKey(tools, k) <==> k.tool == tools[0].key || HasKey(tools[1..], k) {
      if k.tool == tools[0].key { assert tools[0] in tools; }
    }
  }

  lemma UpdatesSplit(tools: seq<Tool>)
    requires tools != []
    ensures UpdateIds(tools) == UpdateIds(tools[1..]) + if tools[0].UpdateChart? then {tools[0].chart} else {}
  {
    assert forall t :: t in tools <==> t == tools[0] || t in tools[1..];
    if tools[0].UpdateChart? { assert tools[0] in tools; }
  }

  // What a tool of the run has left in the store t at the end.
  ghost predicate Left(s: Store, t: Store, tool: Tool, d: Done) {
    match tool
    case WriteCells(key, _, _, _) => Key(key, Own) in t.done && d == Wrote(t.done[Key(key, Own)])
    case CreateObject(key, kind, _, _) =>
      && Key(key, Own) in t.keyed && d == Created(t.keyed[Key(key, Own)], kind, 1)
      && d.item >= s.nextId && d.item in t.objects && t.objects[d.item].revision == 1
    case UpdateChart(_, chart, expected, content) =>
      chart in t.objects && t.objects[chart].revision == expected + 1 && t.objects[chart].content == content && d.Updated? && d.chart == chart
    case CreateReport(_, name, _, _) => d.Reported? && d.sheet >= s.nextId && d.sheet in t.sheets && t.sheets[d.sheet] == name
  }

  lemma LeftAtFirst(s: Store, tool: Tool)
    requires s.WellFormed() && RunTool(s, tool).Some? && Unused(s, [tool])
    ensures Left(s, RunTool(s, tool).value.0, tool, RunTool(s, tool).value.1)
  {
    hide Store.Write, Placed;
    assert tool in [tool];
    if tool.CreateReport? { WriteFacts(AddSheet(s, tool.name), Placed(s.nextId, tool.text)); }
  }

  lemma {:induction false} EachLeft(s: Store, tools: seq<Tool>, i: nat)
    requires s.WellFormed() && Admitted(s, tools) && Unused(s, tools) && After(s, tools).ok && i < |tools|
    ensures var run := After(s, tools);
            |run.dones| == |tools| && Left(s, run.store, tools[i], run.dones[i])
    decreases |tools|
  {
    hide RunTool, Store.WellFormed, Admitted, Unused, HasKey, UpdateIds, Saga.Execute;
    AfterStep(s, tools);
    var (s1, d) := RunTool(s, tools[0]).value;
    RunToolKeepsShape(s, tools[0]);
    RunToolAdds(s, tools[0]);
    AdmittedRest(s, tools);
    if |tools| > 1 { EachLeft(s1, tools[1..], if i == 0 then 0 else i - 1); } else { assert tools[1..] == []; Nothing(s1); }
    if i == 0 {
      UnusedOne(s, tools);
      LeftAtFirst(s, tools[0]);
      RunKeeps(s1, tools[1..]);
      LaterUpdates(s, tools);
      AdmittedFacts(s, tools);
      KeysApart(tools);
      LeftStays(s, s1, After(s1, tools[1..]).store, tools, d);
    }
  }

  lemma AdmittedFacts(s: Store, tools: seq<Tool>)
    requires s.WellFormed() && tools != [] && Admitted(s, tools)
    ensures DistinctKeys(tools) && forall id :: id in UpdateIds(tools[1..]) ==> id in s.objects && id < s.nextId
  {
    assert forall t :: t in tools[1..] ==> t in tools;
  }

  lemma KeysApart(tools: seq<Tool>)
    requires tools != [] && DistinctKeys(tools)
    ensures forall k: Key :: k.tool == tools[0].key ==> !HasKey(tools[1..], k)
  {
    forall t | t in tools[1..] ensures t.key != tools[0].key {
      var i :| 0 <= i < |tools| - 1 && tools[1..][i] == t;
      assert tools[i + 1] == t;
    }
  }

  lemma LeftStays(s: Store, s1: Store, t: Store, tools: seq<Tool>, d: Done)
    requires tools != [] && Left(s, s1, tools[0], d)
    requires (forall id :: id in s1.objects ==> id in t.objects && (id !in UpdateIds(tools[1..]) ==> t.objects[id] == s1.objects[id]))
    requires (forall id :: id in s1.sheets ==> id in t.sheets && t.sheets[id] == s1.sheets[id])
    requires (forall k :: k in s1.keyed && !HasKey(tools[1..], k) ==> k in t.keyed && t.keyed[k] == s1.keyed[k])
    requires (forall k :: k in s1.done && !HasKey(tools[1..], k) ==> k in t.done && t.done[k] == s1.done[k])
    requires (forall id :: id in UpdateIds(tools[1..]) ==> id in s.objects && id < s.nextId)
    requires tools[0].UpdateChart? ==> tools[0].chart !in UpdateIds(tools[1..])
    requires forall k: Key :: k.tool == tools[0].key ==> !HasKey(tools[1..], k)
    ensures Left(s, t, tools[0], d)
  {
  }

  // -------- a plan whose process stopped after its first calls --------

  // The call is answered under its key with what it made before.
  predicate Again(t: Store, tool: Tool) { tool.CreateObject? || (tool.WriteCells? && RunTool(t, tool).Some?) }

  // Asked again on the store it left, a call is answered with what it did or is
  // refused.
  lemma AskedAgain(s: Store, t: Store, tool: Tool, d: Done)
    requires Left(s, t, tool, d)
    ensures RunTool(t, tool) == if Again(t, tool) then Some((t, d)) else None
    ensures tool.CreateReport? ==> t.Taken(tool.name)
  {
  }

  // The first of the k calls that the retry does not get through again.
  function Stop(t: Store, tools: seq<Tool>, envs: seq<Env>, k: nat): (p: nat)
    requires k <= |tools| == |envs|
    ensures p <= k && forall i :: 0 <= i < p ==> envs[i].Fine? && Again(t, tools[i])
    ensures p < k ==> !(envs[p].Fine? && Again(t, tools[p]))
    decreases k
  {
    if k == 0 then 0
    else
      var p := Stop(t, tools, envs, k - 1);
      if p < k - 1 || !(envs[k - 1].Fine? && Again(t, tools[k - 1])) then p else k
  }

  // How many of the k calls the retry has noted as completed when it fails.
  function Noted(t: Store, tools: seq<Tool>, envs: seq<Env>, k: nat): (q: nat)
    requires k <= |tools| == |envs|
    ensures q <= k && forall i :: 0 <= i < q ==> Again(t, tools[i])
  {
    var p := Stop(t, tools, envs, k);
    if p < k && envs[p].BookkeepingFails? && Again(t, tools[p]) then p + 1 else p
  }

  // Each of the tools has left its mark in t.
  ghost predicate AllLeft(s: Store, t: Store, tools: seq<Tool>, dones: seq<Done>) {
    |dones| == |tools| && forall i :: 0 <= i < |tools| ==> Left(s, t, tools[i], dones[i])
  }

  // The retry gets as far as the first call it cannot repeat, and no further.
  lemma {:induction false} RetryStops(s: Store, t: Store, tools: seq<Tool>, envs: seq<Env>, k: nat, dones: seq<Done>)
    requires k <= |tools| == |envs| && NoLeak(envs) && AllLeft(s, t, tools[..k], dones) && Stop(t, tools, envs, k) < k
    ensures Execute(t, tools, envs) == Run(t, dones[..Noted(t, tools, envs, k)], false)
    decreases |tools|
  {
    hide RunTool, Left, Again, Saga.Execute, Stop, NoLeak;
    var d := dones[0];
    AllLeftRest(s, t, tools, k, dones);
    AskedAgain(s, t, tools[0], d);
    StopStep(t, tools, envs, k);
    if envs[0].Fine? && Again(t, tools[0]) {
      FineStep(t, tools, envs, d);
      NoLeakRest(envs);
      RetryStops(s, t, tools[1..], envs[1..], k - 1, dones[1..]);
      var n := Noted(t, tools[1..], envs[1..], k - 1);
      assert [d] + dones[1..][..n] == dones[..n + 1];
    } else {
      StopsHere(t, tools, envs, d);
      assert dones[..0] == [] && dones[..1] == [d];
    }
  }

  lemma AllLeftRest(s: Store, t: Store, tools: seq<Tool>, k: nat, dones: seq<Done>)
    requires 0 < k <= |tools| && AllLeft(s, t, tools[..k], dones)
    ensures Left(s, t, tools[0], dones[0]) && AllLeft(s, t, tools[1..][..k - 1], dones[1..])
  {
    hide Left;
    assert tools[..k][0] == tools[0];
    forall i | 0 <= i < k - 1 ensures Left(s, t, tools[1..][..k - 1][i], dones[1..][i]) {
      assert tools[1..][..k - 1][i] == tools[..k][i + 1];
    }
  }

  lemma NoLeakRest(envs: seq<Env>)
    requires envs != [] && NoLeak(envs)
    ensures NoLeak(envs[1..])
  {
    assert forall e :: e in envs[1..] ==> e in envs;
  }

  // The first call goes through again, or the retry stops at it.
  lemma FineStep(t: Store, tools: seq<Tool>, envs: seq<Env>, d: Done)
    requires |tools| == |envs| && tools != [] && envs[0].Fine? && RunTool(t, tools[0]) == Some((t, d))
    ensures var rest := Execute(t, tools[1..], envs[1..]);
            Execute(t, tools, envs) == Run(rest.store, [d] + rest.dones, rest.ok)
  {
    hide RunTool;
  }

  lemma StopsHere(t: Store, tools: seq<Tool>, envs: seq<Env>, d: Done)
    requires |tools| == |envs| && tools != [] && NoLeak(envs) && (tools[0].CreateReport? ==> t.Taken(tools[0].name))
    requires RunTool(t, tools[0]) == if Again(t, tools[0]) then Some((t, d)) else None
    requires !(envs[0].Fine? && Again(t, tools[0]))
    ensures Execute(t, tools, envs) == Run(t, if envs[0].BookkeepingFails? && Again(t, tools[0]) then [d] else [], false)
  {
    hide RunTool, Again;
    assert envs[0] in envs;
  }

  lemma {:induction false} StopStep(t: Store, tools: seq<Tool>, envs: seq<Env>, k: nat)
    requires 0 < k <= |tools| == |envs|
    ensures Stop(t, tools, envs, k)
         == if envs[0].Fine? && Again(t, tools[0]) then Stop(t, tools[1..], envs[1..], k - 1) + 1 else 0
    decreases k
  {
    hide Again;
    if k > 1 { StopStep(t, tools, envs, k - 1); }
  }

  // When it can repeat all of them, the rest runs as if nothing had happened.
  lemma {:induction false} RetryPasses(s: Store, t: Store, tools: seq<Tool>, envs: seq<Env>, k: nat, dones: seq<Done>)
    requires k <= |tools| == |envs| && AllLeft(s, t, tools[..k], dones) && Stop(t, tools, envs, k) == k
    ensures var rest := Execute(t, tools[k..], envs[k..]);
            Execute(t, tools, envs) == Run(rest.store, dones + rest.dones, rest.ok)
    decreases |tools|
  {
    hide RunTool, Left, Again, Saga.Execute, Stop;
    var rest := Execute(t, tools[k..], envs[k..]);
    if k == 0 {
      assert tools[0..] == tools && envs[0..] == envs && dones == [];
      assert [] + rest.dones == rest.dones;
    } else {
      AllLeftRest(s, t, tools, k, dones);
      AskedAgain(s, t, tools[0], dones[0]);
      StopStep(t, tools, envs, k);
      FineStep(t, tools, envs, dones[0]);
      RetryPasses(s, t, tools[1..], envs[1..], k - 1, dones[1..]);
      assert tools[1..][k - 1..] == tools[k..] && envs[1..][k - 1..] == envs[k..];
      assert [dones[0]] + (dones[1..] + rest.dones) == dones + rest.dones;
    }
  }

  // -------- what such a retry can undo --------

  function CreatedIds(dones: seq<Done>): set<Id> { set d | d in dones && d.Created? :: d.item }

  ghost predicate Removable(t: Store, dones: seq<Done>) {
    forall d :: d in dones ==> d.Wrote? || (d.Created? && (d.item in t.objects ==> t.objects[d.item].revision == d.revision))
  }

  // Undoing cell operations and creations takes away exactly what was created.
  lemma {:induction false} UndoRemoves(t: Store, dones: seq<Done>)
    requires Removable(t, dones)
    ensures var u := UndoAll(t, dones);
            u.ok && u.store.objects == t.objects - CreatedIds(dones) && u.store.sheets == t.sheets
    decreases |dones|
  {
    hide UndoTool;
    if dones == [] {
      assert CreatedIds([]) == {} && t.objects - {} == t.objects;
    } else {
      var last, front := dones[|dones| - 1], dones[..|dones| - 1];
      assert last in dones && forall d :: d in front ==> d in dones;
      UndoOneRemoves(t, last);
      var t1 := UndoTool(t, last).value;
      UndoRemoves(t1, front);
      assert dones == front + [last];
      var gone := if last.Created? then {last.item} else {};
      assert CreatedIds(dones) == CreatedIds(front) + gone;
      assert (t.objects - gone) - CreatedIds(front) == t.objects - (CreatedIds(front) + gone);
    }
  }

  lemma UndoOneRemoves(t: Store, d: Done)
    requires Removable(t, [d])
    ensures var r := UndoTool(t, d);
            r.Some? && r.value.objects == t.objects - (if d.Created? then {d.item} else {}) && r.value.sheets == t.sheets
  {
    assert d in [d];
  }

  // A run of creations and cell operations adds its objects and nothing else.
  lemma {:induction false} RunAdds(s: Store, tools: seq<Tool>)
    requires s.WellFormed() && Admitted(s, tools) && Unused(s, tools) && After(s, tools).ok
    requires forall t :: t in tools ==> t.CreateObject? || t.WriteCells?
    ensures var run := After(s, tools);
            && run.store.sheets == s.sheets
            && run.store.objects.Keys == s.objects.Keys + CreatedIds(run.dones)
            && forall id :: id in s.objects ==> run.store.objects[id] == s.objects[id]
    decreases |tools|
  {
    hide Store.WellFormed, Admitted, Saga.Execute, RunTool;
    if tools == [] {
      Nothing(s);
      assert CreatedIds([]) == {};
    } else {
      AfterStep(s, tools);
      var (s1, d) := RunTool(s, tools[0]).value;
      RunToolKeepsShape(s, tools[0]);
      AdmittedRest(s, tools);
      UnusedOne(s, tools);
      OneAdds(s, tools[0]);
      RunAdds(s1, tools[1..]);
      var rest := After(s1, tools[1..]).dones;
      assert forall x :: x in [d] + rest <==> x == d || x in rest;
      assert CreatedIds([d] + rest) == CreatedIds(rest) + if d.Created? then {d.item} else {};
      OldObjects(s);
    }
  }

  lemma OldObjects(s: Store)
    requires s.WellFormed()
    ensures s.nextId !in s.objects
  {
  }

  lemma OneAdds(s: Store, tool: Tool)
    requires s.WellFormed() && RunTool(s, tool).Some? && Unused(s, [tool]) && (tool.CreateObject? || tool.WriteCells?)
    ensures var (s1, d) := RunTool(s, tool).value;
            && s1.sheets == s.sheets
            && s1.objects.Keys == s.objects.Keys + (if d.Created? then {d.item} else {})
            && forall id :: id in s.objects ==> s1.objects[id] == s.objects[id]
  {
    assert tool in [tool];
    if tool.WriteCells? { WriteFacts(s, Writes(s, tool).value); }
  }

  // A plan whose process stopped after k calls and that fails when approved
  // again: the compensation goes through.  With all k calls repeated it restores
  // the workbook; otherwise objects and sheets come back if and only if none of
  // the calls not repeated created, updated or reported anything.
  lemma InterruptedRetry(s: Store, tools: seq<Tool>, k: nat, envs: seq<Env>)
    requires s.WellFormed() && k <= |tools| == |envs| && NoLeak(envs) && Admitted(s, tools) && Unused(s, tools)
    requires After(s, tools[..k]).ok
    ensures var t := After(s, tools[..k]).store;
            var run := Execute(t, tools, envs);
            var undo := UndoAll(run.store, run.dones);
            var q := Noted(t, tools, envs, k);
            && undo.ok
            && (q == k ==> Same(s, undo.store))
            && (SameThings(s, undo.store) <==> forall j :: q <= j < k ==> tools[j].WriteCells?)
            && (run.ok ==> run == Execute(s, tools, AllFine(k) + envs[k..]))
  {
    hide RunTool, Left, Again, Admitted, Unused, Execute, Saga.Execute, Same, SameThings, UndoAll, Stop, Store.WellFormed, NoLeak;
    var first := After(s, tools[..k]);
    var t := first.store;
    PrefixAdmitted(s, tools, k);
    AllLeftAfter(s, tools[..k]);
    if Stop(t, tools, envs, k) == k {
      RetryPasses(s, t, tools, envs, k, first.dones);
      InTwoParts(s, tools, k, envs[k..]);
      AllNoted(t, tools, envs, k);
      FineThenRest(envs, k);
      UnusedIsReady(s, tools);
      CompensationRestores(s, tools, AllFine(k) + envs[k..]);
      SameIsSameThings(s, UndoAll(Execute(t, tools, envs).store, Execute(t, tools, envs).dones).store);
    } else {
      RetryStops(s, t, tools, envs, k, first.dones);
      var q := Noted(t, tools, envs, k);
      forall i | 0 <= i < q ensures tools[..k][i].CreateObject? || tools[..k][i].WriteCells? { AgainKinds(t, tools[i]); }
      StoppedRetry(s, tools[..k], q);
      forall j | q <= j < k ensures tools[..k][j] == tools[j] {}
    }
  }

  lemma AgainKinds(t: Store, tool: Tool)
    requires Again(t, tool)
    ensures tool.CreateObject? || tool.WriteCells?
  {
  }

  lemma AllNoted(t: Store, tools: seq<Tool>, envs: seq<Env>, k: nat)
    requires k <= |tools| == |envs| && Stop(t, tools, envs, k) == k
    ensures Noted(t, tools, envs, k) == k
  {
  }

  lemma FineThenRest(envs: seq<Env>, k: nat)
    requires k <= |envs| && NoLeak(envs)
    ensures NoLeak(AllFine(k) + envs[k..]) && |AllFine(k) + envs[k..]| == |envs|
  {
    assert forall e :: e in envs[k..] ==> e in envs;
  }

  lemma SameIsSameThings(s: Store, t: Store)
    requires Same(s, t)
    ensures SameThings(s, t)
  {
  }

  lemma PrefixAdmitted(s: Store, tools: seq<Tool>, k: nat)
    requires k <= |tools| && Admitted(s, tools) && Unused(s, tools)
    ensures Admitted(s, tools[..k]) && Unused(s, tools[..k])
  {
    assert forall t :: t in tools[..k] ==> t in tools;
  }

  lemma AllLeftAfter(s: Store, tools: seq<Tool>)
    requires s.WellFormed() && Admitted(s, tools) && Unused(s, tools) && After(s, tools).ok
    ensures AllLeft(s, After(s, tools).store, tools, After(s, tools).dones)
  {
    hide Left, Admitted, Unused, Saga.Execute, Store.WellFormed;
    if tools == [] { Nothing(s); } else { EachLeft(s, tools, 0); }
    forall i | 0 <= i < |tools| ensures Left(s, After(s, tools).store, tools[i], After(s, tools).dones[i]) {
      EachLeft(s, tools, i);
    }
  }

  lemma {:induction false} ItemsGrow(s: Store, tools: seq<Tool>, i: nat, j: nat)
    requires s.WellFormed() && Admitted(s, tools) && Unused(s, tools) && After(s, tools).ok
    requires i < j < |tools| && tools[i].CreateObject? && tools[j].CreateObject?
    ensures var dones := After(s, tools).dones;
            |dones| == |tools| && dones[i].Created? && dones[j].Created? && dones[i].item < dones[j].item
    decreases |tools|
  {
    hide Admitted, Unused, Saga.Execute, RunTool, Store.WellFormed;
    AfterStep(s, tools);
    var s1 := RunTool(s, tools[0]).value.0;
    RunToolKeepsShape(s, tools[0]);
    AdmittedRest(s, tools);
    EachLeft(s, tools, i);
    EachLeft(s, tools, j);
    if i > 0 {
      ItemsGrow(s1, tools[1..], i - 1, j - 1);
    } else {
      UnusedOne(s, tools);
      CreatedNext(s, tools[0]);
      EachLeft(s1, tools[1..], j - 1);
    }
  }

  lemma CreatesCreated(s: Store, t: Store, tool: Tool, d: Done)
    requires Left(s, t, tool, d) && tool.CreateObject?
    ensures d.Created?
  {
  }

  lemma CreatedNext(s: Store, tool: Tool)
    requires tool.CreateObject? && RunTool(s, tool).Some? && Unused(s, [tool])
    ensures RunTool(s, tool).value.1 == Created(s.nextId, tool.kind, 1) && RunTool(s, tool).value.0.nextId == s.nextId + 1
  {
    assert tool in [tool];
  }

  // Undoing only the first q of the tools that ran, all of which could be
  // repeated.
  lemma StoppedRetry(s: Store, tools: seq<Tool>, q: nat)
    requires s.WellFormed() && Admitted(s, tools) && Unused(s, tools) && After(s, tools).ok && q <= |tools|
    requires forall i :: 0 <= i < q ==> tools[i].CreateObject? || tools[i].WriteCells?
    ensures var run := After(s, tools);
            |run.dones| == |tools|
    ensures var run := After(s, tools);
            var undo := UndoAll(run.store, run.dones[..q]);
            && undo.ok
            && (q == |tools| ==> Same(s, undo.store))
            && (SameThings(s, undo.store) <==> forall j :: q <= j < |tools| ==> tools[j].WriteCells?)
  {
    hide Admitted, Unused, Saga.Execute, Same, UndoAll, RunTool, Store.WellFormed, SameThings, Left;
    var run := After(s, tools);
    AllLeftAfter(s, tools);
    var undo := UndoAll(run.store, run.dones[..q]);
    FirstRemovable(s, run.store, tools, run.dones, q);
    UndoRemoves(run.store, run.dones[..q]);
    if forall j :: q <= j < |tools| ==> tools[j].WriteCells? {
      forall t | t in tools ensures t.CreateObject? || t.WriteCells? {
        var i :| 0 <= i < |tools| && tools[i] == t;
      }
      RunAdds(s, tools);
      CreatedEarly(s, run.store, tools, run.dones, q);
      NewIds(s, run.store, tools, run.dones);
      Restored(s, run.store, undo.store, CreatedIds(run.dones));
    } else {
      var j :| q <= j < |tools| && !tools[j].WriteCells?;
      forall i | 0 <= i < j && tools[i].CreateObject? && tools[j].CreateObject?
        ensures run.dones[i].Created? && run.dones[j].Created? && run.dones[i].item != run.dones[j].item
      {
        ItemsGrow(s, tools, i, j);
      }
      forall i | 0 <= i < |tools| && tools[i].CreateObject? ensures run.dones[i].Created? {
        CreatesCreated(s, run.store, tools[i], run.dones[i]);
      }
      Remains(s, run.store, tools, run.dones, q, j, undo.store);
    }
    if q == |tools| {
      assert run.dones[..q] == run.dones;
      NoLeakFine(|tools|);
      UnusedIsReady(s, tools);
      CompensationRestores(s, tools, AllFine(|tools|));
    }
  }

  lemma NoLeakFine(n: nat)
    ensures NoLeak(AllFine(n)) && |AllFine(n)| == n
  {
  }

  lemma FirstRemovable(s: Store, t: Store, tools: seq<Tool>, dones: seq<Done>, q: nat)
    requires AllLeft(s, t, tools, dones) && q <= |tools| && forall i :: 0 <= i < q ==> tools[i].CreateObject? || tools[i].WriteCells?
    ensures Removable(t, dones[..q])
  {
    forall d | d in dones[..q] ensures d.Wrote? || (d.Created? && t.objects[d.item].revision == d.revision) {
      var i :| 0 <= i < q && dones[i] == d;
      assert Left(s, t, tools[i], d);
    }
  }

  // After the first q only cells were written, so the first q created it all.
  lemma CreatedEarly(s: Store, t: Store, tools: seq<Tool>, dones: seq<Done>, q: nat)
    requires AllLeft(s, t, tools, dones) && q <= |tools| && forall j :: q <= j < |tools| ==> tools[j].WriteCells?
    ensures CreatedIds(dones[..q]) == CreatedIds(dones)
  {
    forall d | d in dones && d.Created? ensures d in dones[..q] {
      var i :| 0 <= i < |dones| && dones[i] == d;
      assert Left(s, t, tools[i], dones[i]);
      assert dones[..q][i] == d;
    }
    assert forall d :: d in dones[..q] ==> d in dones;
  }

  lemma NewIds(s: Store, t: Store, tools: seq<Tool>, dones: seq<Done>)
    requires s.WellFormed() && AllLeft(s, t, tools, dones)
    ensures CreatedIds(dones) !! s.objects.Keys
  {
    forall d | d in dones && d.Created? ensures d.item !in s.objects {
      var i :| 0 <= i < |dones| && dones[i] == d;
      assert Left(s, t, tools[i], dones[i]);
    }
  }

  lemma Restored(s: Store, t: Store, u: Store, created: set<Id>)
    requires t.sheets == s.sheets && t.objects.Keys == s.objects.Keys + created && created !! s.objects.Keys
    requires forall id :: id in s.objects ==> t.objects[id] == s.objects[id]
    requires u.objects == t.objects - created && u.sheets == t.sheets
    ensures SameThings(s, u)
  {
  }

  // A creation, update or report that is not undone can be seen.
  lemma Remains(s: Store, t: Store, tools: seq<Tool>, dones: seq<Done>, q: nat, j: nat, u: Store)
    requires s.WellFormed() && Admitted(s, tools) && AllLeft(s, t, tools, dones) && q <= j < |tools| && !tools[j].WriteCells?
    requires forall i :: 0 <= i < |tools| && tools[i].CreateObject? ==> dones[i].Created?
    requires forall i :: 0 <= i < q ==> tools[i].CreateObject? || tools[i].WriteCells?
    requires u.objects == t.objects - CreatedIds(dones[..q]) && u.sheets == t.sheets
    requires forall i :: 0 <= i < j && tools[i].CreateObject? && tools[j].CreateObject? ==> dones[i].item != dones[j].item
    ensures !SameThings(s, u)
  {
    var tool, d := tools[j], dones[j];
    assert Left(s, t, tool, d) && tool in tools;
    forall x | x in dones[..q] && x.Created?
      ensures x.item >= s.nextId && (tool.CreateObject? ==> x.item != d.item)
    {
      var i :| 0 <= i < q && dones[i] == x;
      assert Left(s, t, tools[i], x);
    }
    match tool {
      case CreateObject(_, _, _, _) => assert d.item in u.objects && d.item !in s.objects;
      case UpdateChart(_, chart, _, content) => assert u.objects[chart] == t.objects[chart];
      case CreateReport(_, _, _, _) => assert d.sheet in u.sheets && d.sheet !in s.sheets;
    }
  }

  // The plan that starts by updating a chart: stopped right after that call, it
  // can never be approved again, and the chart stays changed.
  lemma UpdateCannotBeRepeated(s: Store, tools: seq<Tool>, k: nat, envs: seq<Env>)
    requires s.WellFormed() && 0 < k <= |tools| == |envs| && NoLeak(envs) && Admitted(s, tools) && Unused(s, tools)
    requires After(s, tools[..k]).ok && tools[0].UpdateChart?
    ensures var run := Execute(After(s, tools[..k]).store, tools, envs);
            !run.ok && run.dones == [] && !Same(s, UndoAll(run.store, run.dones).store)
  {
    var first := After(s, tools[..k]);
    InterruptedRetry(s, tools, k, envs);
    PrefixAdmitted(s, tools, k);
    AllLeftAfter(s, tools[..k]);
    StopStep(first.store, tools, envs, k);
    RetryStops(s, first.store, tools, envs, k, first.dones);
    assert !tools[0].WriteCells?;
  }
}
