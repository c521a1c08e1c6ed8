/**
  Executing an agent's plan: the approved cell operation, then tools one after
  another, and, when one fails, undoing what was done in reverse.
*/
module Saga {
  import opened CellAddress

  type Id = nat

  datatype Cell = Cell(sheet: Id, row: int, column: int)

  // Charts are the objects a plan may also update.  `Checked` kinds are deleted
  // only at the revision the caller names.
  datatype Kind = Chart | Pivot | Validation | ConditionalFormat | Table | FilterView
  {
    predicate Checked() { !Table? && !FilterView? }
  }

  datatype Object = Object(kind: Kind, content: string, revision: int, sheet: Id)

  // One cell operation, as the store keeps it for undoing.
  datatype Operation = Operation(before: map<Cell, string>, after: map<Cell, string>)

  // The idempotency keys of a call: the tool's number in the plan, and which of
  // the tool's requests it is.
  datatype Part = Own | ReportText | ReportGraph
  datatype Key = Key(tool: nat, part: Part)

  // A cell that is not in the map is empty.  `keyed` are the keys of the objects
  // there are; `done` the keys of all cell operations ever made, and `undone` the
  // operations that have been undone.
  datatype Store = Store(version: int, cells: map<Cell, string>, objects: map<Id, Object>, sheets: map<Id, string>,
                         operations: map<Id, Operation>, undone: set<Id>, keyed: map<Key, Id>, done: map<Key, Id>, nextId: Id)
  {
    function Get(c: Cell): string { if c in cells then cells[c] else "" }

    predicate WellFormed() {
      && sheets != map[]
      && (forall id :: id in sheets ==> id < nextId)
      && (forall id :: id in objects ==> id < nextId && objects[id].sheet < nextId)
      && (forall id :: id in operations ==> id < nextId)
      && (forall id :: id in undone ==> id < nextId)
      && (forall c :: c in cells ==> c.sheet < nextId)
      && (forall id :: id in operations ==> operations[id].before.Keys == operations[id].after.Keys)
    }

    predicate Taken(name: string) { exists id :: id in sheets && sheets[id] == name }

    // ApplyCells: the cells are written and the operation recorded.
    function Write(writes: map<Cell, string>): Store {
      this.(version := version + 1, cells := cells + writes, nextId := nextId + 1,
      operations := operations[nextId := Operation(map c | c in writes :: Get(c), writes)])
    }

    // ApplyCells under a key: a known key answers with the operation it made.
    function WriteOnce(key: Key, writes: map<Cell, string>): Store {
      if key in done then this else Write(writes).(done := done[key := nextId])
    }

    function OperationOf(key: Key): Id { if key in done then done[key] else nextId }

    // UndoOperation: each cell that still holds what was written gets back what
    // it held before; a cell somebody changed since is left alone.
    function UndoWrites(op: Operation): Store
      requires op.before.Keys == op.after.Keys
    {
      Write(map c | c in op.after && Get(c) == op.after[c] :: op.before[c])
    }

    function Keep(kept: map<Id, Object>): Store {
      this.(version := version + 1, objects := kept, keyed := map k | k in keyed && keyed[k] in kept :: keyed[k])
    }

    // DeleteSheet takes the sheet's cells and objects with it.
    function WithoutSheet(sheet: Id): Store {
      Keep(map id | id in objects && objects[id].sheet != sheet :: objects[id])
      .(sheets := sheets - {sheet}, cells := map c | c in cells && c.sheet != sheet :: cells[c])
    }
  }

  // A row and a column of a sheet, and the text at such places.
  type Place = (int, int)
  type Text = map<Place, string>

  // A sort, or the approved change of cells, works on an area of one sheet:
  // `rewrite` computes what it writes there from what the area holds, or refuses.
  // `key` numbers the calls of a plan; the store keeps the keys of each kind of
  // request apart.
  datatype Tool =
    | WriteCells(key: nat, sheet: Id, area: set<Place>, rewrite: Text -> Option<Text>)
    | CreateObject(key: nat, kind: Kind, content: string, sheet: Id)
    | UpdateChart(key: nat, chart: Id, expected: int, content: string)
    | CreateReport(key: nat, name: string, text: Text, graph: Option<string>)

  // What a completed tool remembers for undoing it.
  datatype Done =
    | Wrote(operation: Id)
    | Created(item: Id, kind: Kind, revision: int)
    | Updated(chart: Id, was: Object, revision: int)
    | Reported(sheet: Id)

  function Placed(sheet: Id, text: Text): map<Cell, string> {
    map p | p in text :: Cell(sheet, p.0, p.1) := text[p]
  }

  // What an area holds; empty places are not listed.
  function Contents(s: Store, sheet: Id, area: set<Place>): Text {
    map p | p in area && s.Get(Cell(sheet, p.0, p.1)) != "" :: s.Get(Cell(sheet, p.0, p.1))
  }

  // What a cell operation writes, by place and by cell, or None when it refuses.
  function Rewritten(s: Store, tool: Tool): Option<Text>
    requires tool.WriteCells?
  {
    match tool.rewrite(Contents(s, tool.sheet, tool.area))
    case None => None
    case Some(text) => Some(map p | p in text && p in tool.area :: text[p])
  }

  function Writes(s: Store, tool: Tool): Option<map<Cell, string>>
    requires tool.WriteCells?
  {
    match Rewritten(s, tool)
    case None => None
    case Some(text) => Some(Placed(tool.sheet, text))
  }

  function AddSheet(s: Store, name: string): Store {
    s.(version := s.version + 1, sheets := s.sheets[s.nextId := name], nextId := s.nextId + 1)
  }

  function AddObject(s: Store, key: Key, kind: Kind, content: string, sheet: Id): Store {
    s.(version := s.version + 1, objects := s.objects[s.nextId := Object(kind, content, 1, sheet)],
    keyed := s.keyed[key := s.nextId], nextId := s.nextId + 1)
  }

  // The report's sheet and text, without its chart.
  function WriteReport(s: Store, tool: Tool): Store
    requires tool.CreateReport?
  {
    AddSheet(s, tool.name).WriteOnce(Key(tool.key, ReportText), Placed(s.nextId, tool.text))
  }

  // A tool that goes through, or None when the store refuses it.  Creating under
  // a key that has an object answers with that object.
  function RunTool(s: Store, tool: Tool): Option<(Store, Done)> {
    match tool
    case WriteCells(key, sheet, _, _) =>
      if sheet !in s.sheets then None
      else
        (match Writes(s, tool)
         case None => None
         case Some(writes) => Some((s.WriteOnce(Key(key, Own), writes), Wrote(s.OperationOf(Key(key, Own))))))
    case CreateObject(key, kind, content, sheet) =>
      var k := Key(key, Own);
      if k in s.keyed && s.keyed[k] in s.objects then Some((s, Created(s.keyed[k], kind, s.objects[s.keyed[k]].revision)))
      else if sheet in s.sheets then Some((AddObject(s, k, kind, content, sheet), Created(s.nextId, kind, 1)))
      else None
    case UpdateChart(_, chart, expected, content) =>
      if chart in s.objects && s.objects[chart].kind.Chart? && s.objects[chart].revision == expected then
        Some((s.(version := s.version + 1, objects := s.objects[chart := s.objects[chart].(content := content, revision := expected + 1)]),
              Updated(chart, s.objects[chart], expected + 1)))
      else None
    case CreateReport(key, name, _, graph) =>
      if s.Taken(name) then None
      else
        var written := WriteReport(s, tool);
        Some((if graph.Some? then AddObject(written, Key(key, ReportGraph), Chart, graph.value, s.nextId) else written, Reported(s.nextId)))
  }

  // Undoing one completed tool; None when the store refuses.  Something already
  // gone, and an operation undone before, count as undone.
  function UndoTool(s: Store, d: Done): Option<Store> {
    match d
    case Wrote(op) =>
      if op in s.operations && op !in s.undone && s.operations[op].before.Keys == s.operations[op].after.Keys
      then Some(s.UndoWrites(s.operations[op]).(undone := s.undone + {op})) else Some(s)
    case Created(id, kind, revision) =>
      if id !in s.objects then Some(s)
      else if kind.Checked() && s.objects[id].revision != revision then None
      else Some(s.Keep(s.objects - {id}))
    case Updated(id, was, revision) =>
      if id in s.objects && s.objects[id].revision == revision
      then Some(s.(version := s.version + 1, objects := s.objects[id := was.(revision := revision + 1)])) else None
    case Reported(sheet) =>
      if sheet !in s.sheets then Some(s)
      else if |s.sheets| <= 1 then None
      else Some(s.WithoutSheet(sheet))
  }

  // How the way to the store treats one tool: an error before anything is
  // committed, after a report's sheet or its text is made, or after a commit; or
  // the tool is done but writing that down fails.
  datatype Point = Before | SheetMade | TextMade | AfterCommit
  datatype Env = Fine | Breaks(point: Point) | BookkeepingFails

  datatype Run = Run(store: Store, dones: seq<Done>, ok: bool)

  // A report that broke after its sheet was made has deleted the sheet again.
  function Broken(s: Store, tool: Tool, point: Point): Store {
    if tool.CreateReport? then
      if s.Taken(tool.name) || point.Before? then s
      else if point.SheetMade? then AddSheet(s, tool.name).WithoutSheet(s.nextId)
      else if point.TextMade? then WriteReport(s, tool).WithoutSheet(s.nextId)
      else AddSheet(s, tool.name)
    else if point.AfterCommit? && RunTool(s, tool).Some? then RunTool(s, tool).value.0
    else s
  }

  function Execute(s: Store, tools: seq<Tool>, envs: seq<Env>): Run
    requires |tools| == |envs|
    decreases |tools|
  {
    if tools == [] then Run(s, [], true)
    else if envs[0].Breaks? then Run(Broken(s, tools[0], envs[0].point), [], false)
    else
      match RunTool(s, tools[0])
      case None => Run(s, [], false)
      case Some((s1, d)) =>
        if envs[0].BookkeepingFails? then Run(s1, [d], false)
        else
          var rest := Execute(s1, tools[1..], envs[1..]);
          Run(rest.store, [d] + rest.dones, rest.ok)
  }

  datatype Undone = Undone(store: Store, ok: bool)

  // Last done, first undone; the first refusal stops it.
  function UndoAll(s: Store, dones: seq<Done>): Undone
    decreases |dones|
  {
    if dones == [] then Undone(s, true)
    else
      match UndoTool(s, dones[|dones| - 1])
      case None => Undone(s, false)
      case Some(s1) => UndoAll(s1, dones[..|dones| - 1])
  }

  // -------- what the planner admits --------

  predicate DistinctKeys(tools: seq<Tool>) {
    forall i, j :: 0 <= i < j < |tools| ==> tools[i].key != tools[j].key
  }

  // No call of the plan has been made on this store.
  ghost predicate Unused(s: Store, tools: seq<Tool>) {
    forall t, part :: t in tools ==> Key(t.key, part) !in s.keyed && Key(t.key, part) !in s.done
  }

  // Nothing there is answers to the key.
  predicate Free(s: Store, k: Key) { k in s.keyed ==> s.keyed[k] < s.nextId && s.keyed[k] !in s.objects }

  // The operation has been made and undone.
  predicate Spent(s: Store, op: Id) { op in s.operations && op in s.undone }

  // The call has not been made, or what it made is gone again.
  predicate Rested(s: Store, tool: Tool) {
    && (tool.CreateObject? ==> Free(s, Key(tool.key, Own)))
    && (tool.WriteCells? && Key(tool.key, Own) in s.done ==> Spent(s, s.done[Key(tool.key, Own)]))
  }

  ghost predicate Ready(s: Store, tools: seq<Tool>) { forall t :: t in tools ==> Rested(s, t) }

  // Every tool has its own key, an update names a chart there is and changes it,
  // no chart is updated twice, and objects and sorts name sheets there are.
  ghost predicate Admitted(s: Store, tools: seq<Tool>) {
    && DistinctKeys(tools)
    && (forall i, j :: 0 <= i < j < |tools| && tools[i].UpdateChart? && tools[j].UpdateChart? ==> tools[i].chart != tools[j].chart)
    && (forall t :: t in tools && t.UpdateChart? ==> t.chart in s.objects && t.content != s.objects[t.chart].content)
    && (forall t :: t in tools && (t.CreateObject? || t.WriteCells?) ==> t.sheet in s.sheets)
  }

  // -------- restored up to counters --------

  predicate SameObject(a: Object, b: Object) { a.(revision := 0) == b.(revision := 0) }

  // The same objects and sheets but for revisions.
  ghost predicate SameThings(s: Store, t: Store) {
    && s.objects.Keys == t.objects.Keys && (forall id :: id in s.objects ==> SameObject(s.objects[id], t.objects[id]))
    && s.sheets == t.sheets
  }

  // The same workbook but for version, revision and identifier counters.
  ghost predicate Same(s: Store, t: Store) {
    (forall c :: s.Get(c) == t.Get(c)) && SameThings(s, t)
  }

  // t is s again after later tools were undone: charts in `touched` have moved on
  // to a later revision, nothing else has.
  ghost predicate Back(s: Store, t: Store, touched: set<Id>) {
    && Same(s, t) && t.WellFormed() && s.nextId <= t.nextId
    && (forall id :: id in s.objects ==>
                       if id in touched then t.objects[id].revision > s.objects[id].revision else t.objects[id].revision == s.objects[id].revision)
    && (forall op :: op in s.operations ==> op in t.operations && t.operations[op] == s.operations[op] && (op in t.undone <==> op in s.undone))
  }

  function Touched(dones: seq<Done>): set<Id> { set d | d in dones && d.Updated? :: d.chart }

  lemma RunToolKeepsShape(s: Store, tool: Tool)
    requires s.WellFormed() && RunTool(s, tool).Some?
    ensures RunTool(s, tool).value.0.WellFormed()
  {
    hide Store.WellFormed, Store.Write, Placed;
    SheetsAreOld(s);
    match tool {
      case WriteCells(key, _, _, _) => WritesOnSheet(s, tool); OnceShape(s, Key(key, Own), Writes(s, tool).value);
      case CreateObject(key, kind, content, sheet) => if sheet in s.sheets { ObjectShape(s, Key(key, Own), kind, content, sheet); }
      case UpdateChart(_, _, _, _) => UpdateShape(s, tool);
      case CreateReport(key, _, _, graph) =>
        ReportShape(s, tool);
        if graph.Some? { ObjectShape(WriteReport(s, tool), Key(key, ReportGraph), Chart, graph.value, s.nextId); }
    }
  }

  lemma WritesOnSheet(s: Store, tool: Tool)
    requires tool.WriteCells? && Writes(s, tool).Some?
    ensures forall c :: c in Writes(s, tool).value ==> c.sheet == tool.sheet && (c.row, c.column) in tool.area
  {
  }

  lemma OnceShape(s: Store, key: Key, writes: map<Cell, string>)
    requires s.WellFormed() && forall c :: c in writes ==> c.sheet < s.nextId
    ensures s.WriteOnce(key, writes).WellFormed() && s.nextId <= s.WriteOnce(key, writes).nextId
  {
    WriteShape(s, writes);
  }

  lemma ObjectShape(s: Store, key: Key, kind: Kind, content: string, sheet: Id)
    requires s.WellFormed() && sheet < s.nextId
    ensures AddObject(s, key, kind, content, sheet).WellFormed()
  {
  }

  lemma UpdateShape(s: Store, tool: Tool)
    requires s.WellFormed() && tool.UpdateChart? && RunTool(s, tool).Some?
    ensures RunTool(s, tool).value.0.WellFormed()
  {
  }

  lemma ReportShape(s: Store, tool: Tool)
    requires s.WellFormed() && tool.CreateReport?
    ensures WriteReport(s, tool).WellFormed() && s.nextId < WriteReport(s, tool).nextId
  {
    hide Store.Write;
    var s1 := AddSheet(s, tool.name);
    assert s1.WellFormed();
    OnceShape(s1, Key(tool.key, ReportText), Placed(s.nextId, tool.text));
  }

  lemma UndoWrote(s: Store, tool: Tool, t: Store, touched: set<Id>)
    requires s.WellFormed() && tool.WriteCells? && RunTool(s, tool).Some? && Rested(s, tool)
    requires Back(RunTool(s, tool).value.0, t, touched)
    ensures var r := UndoTool(t, RunTool(s, tool).value.1);
            r.Some? && Back(s, r.value, touched)
  {
    hide Writes, Store.Write, Back, UndoTool, Store.WellFormed;
    WritesOnSheet(s, tool);
    var writes := Writes(s, tool).value;
    if Key(tool.key, Own) in s.done {
      BackFacts(s, t, touched);
      UndoneBefore(t, s.done[Key(tool.key, Own)]);
    } else {
      BackIgnoresDone(s.Write(writes), s.done[Key(tool.key, Own) := s.nextId], t, touched);
      UndoWrites(s, writes, t, touched);
    }
  }

  lemma UndoneBefore(t: Store, op: Id)
    requires op in t.undone
    ensures UndoTool(t, Wrote(op)) == Some(t)
  {
  }

  lemma BackIgnoresDone(s: Store, done: map<Key, Id>, t: Store, touched: set<Id>)
    requires Back(s.(done := done), t, touched)
    ensures Back(s, t, touched)
  {
    hide Store.WellFormed;
    forall c ensures s.Get(c) == t.Get(c) { assert s.(done := done).Get(c) == t.Get(c); }
  }

  lemma UndoWrites(s: Store, writes: map<Cell, string>, t: Store, touched: set<Id>)
    requires s.WellFormed() && (forall c :: c in writes ==> c.sheet in s.sheets) && Back(s.Write(writes), t, touched)
    ensures var r := UndoTool(t, Wrote(s.nextId));
            r.Some? && Back(s, r.value, touched)
  {
    hide Store.Write, Store.WellFormed, Store.Get, Store.UndoWrites, UndoTool, SameThings, Same, Back;
    SheetsAreOld(s);
    var s1 := s.Write(writes);
    WriteFacts(s, writes);
    WriteShape(s, writes);
    BackFacts(s1, t, touched);
    var op := s1.operations[s.nextId];
    var undo := map c | c in op.after && t.Get(c) == op.after[c] :: op.before[c];
    assert undo.Keys == writes.Keys && forall c :: c in writes ==> undo[c] == s.Get(c);
    UndoIsWrite(t, s.nextId);
    WriteFacts(t, undo);
    WriteShape(t, undo);
    MarkUndone(t.Write(undo), s.nextId);
    UnwrittenBack(s, s1, t, t.Write(undo).(undone := t.undone + {s.nextId}), touched);
  }

  lemma BackFacts(s: Store, t: Store, touched: set<Id>)
    requires Back(s, t, touched)
    ensures t.WellFormed() && s.nextId <= t.nextId && (forall c :: s.Get(c) == t.Get(c)) && s.sheets == t.sheets
    ensures forall op :: op in s.operations ==> op in t.operations && t.operations[op] == s.operations[op] && (op in t.undone <==> op in s.undone)
  {
  }

  // r is t with the cells s1 wrote over s put back.
  lemma UnwrittenBack(s: Store, s1: Store, t: Store, r: Store, touched: set<Id>)
    requires Back(s1, t, touched) && s1.objects == s.objects && s1.sheets == s.sheets && s.nextId <= s1.nextId && s1.undone == s.undone
    requires s.nextId !in s.operations && forall op :: op in s.operations ==> op in s1.operations && s1.operations[op] == s.operations[op]
    requires r.WellFormed() && r.objects == t.objects && r.sheets == t.sheets && t.nextId <= r.nextId && r.undone == t.undone + {s.nextId}
    requires forall op :: op in t.operations ==> op in r.operations && r.operations[op] == t.operations[op]
    requires forall c :: r.Get(c) == s.Get(c)
    ensures Back(s, r, touched)
  {
    hide Store.WellFormed, Store.Get, SameObject;
  }

  lemma MarkUndone(s: Store, op: Id)
    requires s.WellFormed() && op < s.nextId
    ensures var r := s.(undone := s.undone + {op});
            r.WellFormed() && forall c :: r.Get(c) == s.Get(c)
  {
  }

  lemma SheetsAreOld(s: Store)
    requires s.WellFormed()
    ensures s.sheets != map[] && (forall id :: id in s.sheets ==> id < s.nextId) && (forall id :: id in s.undone ==> id < s.nextId)
  {
  }

  lemma UndoIsWrite(t: Store, id: Id)
    requires id in t.operations && id !in t.undone && t.operations[id].before.Keys == t.operations[id].after.Keys
    ensures var op := t.operations[id];
            UndoTool(t, Wrote(id))
            == Some(t.Write(map c | c in op.after && t.Get(c) == op.after[c] :: op.before[c]).(undone := t.undone + {id}))
  {
  }

  lemma WriteFacts(s: Store, writes: map<Cell, string>)
    ensures var s1 := s.Write(writes);
            && (forall c :: s1.Get(c) == if c in writes then writes[c] else s.Get(c))
            && s1.objects == s.objects && s1.sheets == s.sheets && s1.nextId == s.nextId + 1 && s1.undone == s.undone
            && s1.keyed == s.keyed && s1.done == s.done
            && s.nextId in s1.operations && s1.operations[s.nextId].after == writes
            && s1.operations[s.nextId].before == (map c | c in writes :: s.Get(c))
            && (forall op :: op in s.operations && op != s.nextId ==> op in s1.operations && s1.operations[op] == s.operations[op])
  {
  }

  lemma WriteShape(s: Store, writes: map<Cell, string>)
    requires s.WellFormed() && forall c :: c in writes ==> c.sheet < s.nextId
    ensures s.Write(writes).WellFormed() && s.nextId !in s.operations && s.nextId !in s.undone
  {
  }

  lemma UndoCreated(s: Store, tool: Tool, t: Store, touched: set<Id>)
    requires s.WellFormed() && tool.CreateObject? && RunTool(s, tool).Some? && Rested(s, tool)
    requires Back(RunTool(s, tool).value.0, t, touched) && s.nextId !in touched
    ensures var r := UndoTool(t, RunTool(s, tool).value.1);
            r.Some? && Back(s, r.value, touched)
  {
    hide Store.Get, Store.WellFormed;
    var s1 := RunTool(s, tool).value.0;
    CreatedIsLast(s);
    assert s1.objects.Keys == s.objects.Keys + {s.nextId};
    var r := t.Keep(t.objects - {s.nextId});
    KeepShape(t, t.objects - {s.nextId});
    forall c ensures s.Get(c) == r.Get(c) { CellsGet(s, s1, c); CellsGet(t, r, c); }
  }

  lemma CreatedIsLast(s: Store)
    requires s.WellFormed()
    ensures s.nextId !in s.objects
  {
  }

  lemma CellsGet(s: Store, t: Store, c: Cell)
    requires s.cells == t.cells
    ensures s.Get(c) == t.Get(c)
  {
  }

  lemma KeepShape(t: Store, kept: map<Id, Object>)
    requires t.WellFormed() && forall id :: id in kept ==> id in t.objects && kept[id] == t.objects[id]
    ensures t.Keep(kept).WellFormed()
  {
  }

  lemma UndoUpdated(s: Store, tool: Tool, t: Store, touched: set<Id>)
    requires s.WellFormed() && tool.UpdateChart? && RunTool(s, tool).Some?
    requires Back(RunTool(s, tool).value.0, t, touched) && tool.chart !in touched
    ensures var r := UndoTool(t, RunTool(s, tool).value.1);
            r.Some? && Back(s, r.value, touched + {tool.chart})
  {
    hide Store.WellFormed, Store.Get, RunTool, UndoTool, Back;
    var (s1, d) := RunTool(s, tool).value;
    UpdateFacts(s, tool);
    BackObject(s1, t, touched, tool.chart);
    UndoUpdateFacts(t, d);
    var r := UndoTool(t, d).value;
    BackFacts(s1, t, touched);
    ReplacedShape(t, tool.chart, r.objects[tool.chart]);
    PutBack(s, s1, t, r, touched, tool.chart);
  }

  lemma UpdateFacts(s: Store, tool: Tool)
    requires tool.UpdateChart? && RunTool(s, tool).Some?
    ensures var (s1, d) := RunTool(s, tool).value;
            && tool.chart in s.objects && d == Updated(tool.chart, s.objects[tool.chart], s.objects[tool.chart].revision + 1)
            && s1 == s.(version := s1.version, objects := s.objects[tool.chart := s1.objects[tool.chart]])
            && s1.objects[tool.chart].revision == d.revision && s1.objects[tool.chart].sheet == s.objects[tool.chart].sheet
  {
  }

  lemma UndoUpdateFacts(t: Store, d: Done)
    requires d.Updated? && d.chart in t.objects && t.objects[d.chart].revision == d.revision
    ensures UndoTool(t, d) == Some(t.(version := t.version + 1, objects := t.objects[d.chart := d.was.(revision := d.revision + 1)]))
  {
  }

  lemma BackObject(s: Store, t: Store, touched: set<Id>, id: Id)
    requires Back(s, t, touched) && id in s.objects && id !in touched
    ensures id in t.objects && t.objects[id].revision == s.objects[id].revision && t.objects[id].sheet == s.objects[id].sheet
  {
    hide Store.WellFormed, Store.Get;
  }

  // r is t with the chart that s1 changed put back as it was in s, one revision on.
  lemma PutBack(s: Store, s1: Store, t: Store, r: Store, touched: set<Id>, id: Id)
    requires Back(s1, t, touched) && id in s.objects && id in s1.objects && id in t.objects && id in r.objects
    requires s1 == s.(version := s1.version, objects := s.objects[id := s1.objects[id]])
    requires r == t.(version := t.version + 1, objects := t.objects[id := r.objects[id]]) && r.WellFormed()
    requires SameObject(s.objects[id], r.objects[id]) && s.objects[id].revision < r.objects[id].revision
    ensures Back(s, r, touched + {id})
  {
    hide Store.WellFormed;
    forall c ensures s.Get(c) == r.Get(c) { assert s1.Get(c) == t.Get(c); }
  }

  lemma ReplacedShape(t: Store, id: Id, item: Object)
    requires t.WellFormed() && id in t.objects && item.sheet == t.objects[id].sheet
    ensures t.(version := t.version + 1, objects := t.objects[id := item]).WellFormed()
  {
  }

  lemma ReportAdds(s: Store, tool: Tool)
    requires s.WellFormed() && tool.CreateReport?
    ensures var w := WriteReport(s, tool);
            && (forall c: Cell :: c.sheet != s.nextId ==> w.Get(c) == s.Get(c))
            && (forall c: Cell :: c.sheet == s.nextId ==> s.Get(c) == "")
            && w.objects == s.objects && w.keyed == s.keyed && w.undone == s.undone
            && (forall id :: id in s.objects ==> s.objects[id].sheet < s.nextId)
            && w.sheets == s.sheets[s.nextId := tool.name]
            && s.nextId < w.nextId
            && (forall op :: op in s.operations ==> op in w.operations && w.operations[op] == s.operations[op])
  {
  }

  // What a whole report adds to the store.
  lemma ReportThings(s: Store, tool: Tool)
    requires s.WellFormed() && tool.CreateReport? && RunTool(s, tool).Some?
    ensures var s1 := RunTool(s, tool).value.0;
            && (forall c: Cell :: c.sheet != s.nextId ==> s1.Get(c) == s.Get(c))
            && (forall c: Cell :: c.sheet == s.nextId ==> s.Get(c) == "")
            && (forall id :: id in s1.objects ==> (s1.objects[id].sheet != s.nextId <==> id in s.objects))
            && (forall id :: id in s.objects ==> id in s1.objects && s1.objects[id] == s.objects[id])
            && s1.sheets == s.sheets[s.nextId := tool.name] && s.nextId < s1.nextId && s1.undone == s.undone
            && (forall op :: op in s.operations ==> op in s1.operations && s1.operations[op] == s.operations[op])
  {
    hide WriteReport, Store.Write, Store.WellFormed, Placed;
    ReportAdds(s, tool);
    var w := WriteReport(s, tool);
    ReportShape(s, tool);
    ObjectsAreOld(w);
    assert forall c :: RunTool(s, tool).value.0.Get(c) == w.Get(c);
  }

  lemma ObjectsAreOld(s: Store)
    requires s.WellFormed()
    ensures forall id :: id in s.objects ==> id < s.nextId
  {
  }

  lemma UndoReported(s: Store, tool: Tool, t: Store, touched: set<Id>)
    requires s.WellFormed() && tool.CreateReport? && RunTool(s, tool).Some?
    requires Back(RunTool(s, tool).value.0, t, touched)
    ensures var r := UndoTool(t, RunTool(s, tool).value.1);
            r.Some? && Back(s, r.value, touched)
  {
    hide RunTool, Store.WellFormed, Store.Get, SameObject;
    var s1 := RunTool(s, tool).value.0;
    ReportedIs(s, tool);
    SheetsAreOld(s);
    ReportThings(s, tool);
    TwoSheets(s, t.sheets, s.nextId, tool.name);
    var r := t.WithoutSheet(s.nextId);
    assert r.sheets == s.sheets;
    WithoutSheetShape(t, s.nextId);
    WithoutSheetCells(t, s.nextId);
    SheetsSame(s1, t);
    assert r.objects.Keys == s.objects.Keys;
  }

  lemma ReportedIs(s: Store, tool: Tool)
    requires tool.CreateReport? && RunTool(s, tool).Some?
    ensures RunTool(s, tool).value.1 == Reported(s.nextId)
  {
  }

  lemma SheetsSame(s: Store, t: Store)
    requires SameThings(s, t)
    ensures forall id :: id in s.objects ==> t.objects[id].sheet == s.objects[id].sheet
  {
  }

  lemma WithoutSheetCells(t: Store, sheet: Id)
    ensures forall c: Cell :: t.WithoutSheet(sheet).Get(c) == if c.sheet == sheet then "" else t.Get(c)
  {
  }

  lemma WithoutSheetShape(t: Store, sheet: Id)
    requires t.WellFormed() && t.WithoutSheet(sheet).sheets != map[]
    ensures t.WithoutSheet(sheet).WellFormed()
  {
  }

  lemma TwoSheets(s: Store, sheets: map<Id, string>, added: Id, name: string)
    requires s.sheets != map[] && added !in s.sheets && sheets == s.sheets[added := name]
    ensures |sheets| > 1
  {
    assert sheets.Keys == s.sheets.Keys + {added};
    assert s.sheets.Keys != {};
  }

  // Undoing a tool on a store that later tools have left again puts it back,
  // unless one of them updated the very object.
  lemma UndoOne(s: Store, tool: Tool, t: Store, touched: set<Id>)
    requires s.WellFormed() && RunTool(s, tool).Some? && Rested(s, tool) && Back(RunTool(s, tool).value.0, t, touched)
    requires s.nextId !in touched && (tool.UpdateChart? ==> tool.chart !in touched)
    ensures var d := RunTool(s, tool).value.1;
            var r := UndoTool(t, d);
            r.Some? && Back(s, r.value, touched + Touched([d]))
  {
    hide UndoTool, Back, Store.WellFormed, Store.WriteOnce, WriteReport, Rested;
    var d := RunTool(s, tool).value.1;
    match tool {
      case WriteCells(_, _, _, _) => UndoWrote(s, tool, t, touched); assert Touched([d]) == {};
      case CreateObject(_, _, _, _) => UndoCreated(s, tool, t, touched); assert Touched([d]) == {};
      case UpdateChart(_, id, _, _) => UndoUpdated(s, tool, t, touched); assert Touched([d]) == {id} by { assert d in [d]; }
      case CreateReport(_, _, _, _) => UndoReported(s, tool, t, touched); assert Touched([d]) == {};
    }
    assert touched + {} == touched;
  }

  lemma {:induction false} UndoAllFirst(s: Store, d: Done, rest: seq<Done>)
    ensures var later := UndoAll(s, rest);
            UndoAll(s, [d] + rest)
            == if !later.ok then later
            else match UndoTool(later.store, d)
                 case None => Undone(later.store, false)
                 case Some(s1) => Undone(s1, true)
    decreases |rest|
  {
    hide UndoTool;
    var all := [d] + rest;
    if rest == [] {
      assert all == [d] && all[..0] == [];
    } else {
      assert all[|all| - 1] == rest[|rest| - 1];
      assert all[..|all| - 1] == [d] + rest[..|rest| - 1];
      var r := UndoTool(s, rest[|rest| - 1]);
      if r.Some? { UndoAllFirst(r.value, d, rest[..|rest| - 1]); }
    }
  }

  lemma BrokenIsBack(s: Store, tool: Tool, point: Point)
    requires s.WellFormed() && !point.AfterCommit?
    ensures Back(s, Broken(s, tool, point), {})
  {
    hide WriteReport, Store.Write, Store.WellFormed;
    SelfBack(s);
    if tool.CreateReport? && point.SheetMade? && !s.Taken(tool.name) {
      SheetIsBack(s, tool.name);
    } else if tool.CreateReport? && point.TextMade? && !s.Taken(tool.name) {
      SheetsAreOld(s);
      ReportAdds(s, tool);
      ReportShape(s, tool);
      var w := WriteReport(s, tool);
      var r := w.WithoutSheet(s.nextId);
      assert r.sheets == s.sheets && r.objects == s.objects;
      WithoutSheetShape(w, s.nextId);
      forall c ensures r.Get(c) == s.Get(c) { assert c.sheet != s.nextId ==> w.Get(c) == s.Get(c); }
    }
  }

  lemma SheetIsBack(s: Store, name: string)
    requires s.WellFormed()
    ensures Back(s, AddSheet(s, name).WithoutSheet(s.nextId), {})
  {
    var w := AddSheet(s, name);
    var r := w.WithoutSheet(s.nextId);
    assert r.sheets == s.sheets && r.objects == s.objects;
    WithoutSheetCells(w, s.nextId);
  }

  // Nothing broke after the store had committed it.
  predicate NoLeak(envs: seq<Env>) { forall e :: e in envs ==> e != Breaks(AfterCommit) }

  // What running a tool leaves of the plan's admission.
  lemma AdmittedRest(s: Store, tools: seq<Tool>)
    requires s.WellFormed() && tools != [] && Admitted(s, tools) && RunTool(s, tools[0]).Some?
    ensures var s1 := RunTool(s, tools[0]).value.0;
            Admitted(s1, tools[1..]) && (Unused(s, tools) ==> Unused(s1, tools[1..]))
  {
    var tool, rest, s1 := tools[0], tools[1..], RunTool(s, tools[0]).value.0;
    assert forall t :: t in rest ==> t in tools && t.key != tool.key && (tool.UpdateChart? && t.UpdateChart? ==> t.chart != tool.chart) by {
      forall t | t in rest ensures t in tools && t.key != tool.key && (tool.UpdateChart? && t.UpdateChart? ==> t.chart != tool.chart) {
        var i :| 0 <= i < |rest| && rest[i] == t;
        assert tools[i + 1] == t;
      }
    }
    RunToolAdds(s, tool);
  }

  // Old objects stay, but for the one an update changes; sheets stay; only keys
  // of the tool itself are new.
  lemma RunToolAdds(s: Store, tool: Tool)
    requires s.WellFormed() && RunTool(s, tool).Some?
    ensures var s1 := RunTool(s, tool).value.0;
            && (forall id :: id in s.objects && !(tool.UpdateChart? && tool.chart == id) ==> id in s1.objects && s1.objects[id] == s.objects[id])
            && (tool.UpdateChart? ==> s1.objects.Keys == s.objects.Keys)
            && (forall id :: id in s.sheets ==> id in s1.sheets && s1.sheets[id] == s.sheets[id])
            && (forall k :: k in s1.keyed && k !in s.keyed ==> k.tool == tool.key)
            && (forall k :: k in s1.done && k !in s.done ==> k.tool == tool.key)
            && s.nextId <= s1.nextId
  {
    hide Store.Write, Placed, Store.Get;
    if tool.WriteCells? { WriteFacts(s, Writes(s, tool).value); }
    if tool.CreateReport? { ReportAddsToo(s, tool); }
  }

  lemma ReportAddsToo(s: Store, tool: Tool)
    requires s.WellFormed() && tool.CreateReport? && RunTool(s, tool).Some?
    ensures var s1 := RunTool(s, tool).value.0;
            && (forall id :: id in s.objects ==> id in s1.objects && s1.objects[id] == s.objects[id])
            && (forall id :: id in s.sheets ==> id in s1.sheets && s1.sheets[id] == s.sheets[id])
            && (forall k :: k in s1.keyed && k !in s.keyed ==> k.tool == tool.key)
            && (forall k :: k in s1.done && k !in s.done ==> k.tool == tool.key)
            && s.nextId <= s1.nextId
  {
    hide Store.Write, Placed, Store.Get;
    WriteFacts(AddSheet(s, tool.name), Placed(s.nextId, tool.text));
  }

  ghost function UpdateIds(tools: seq<Tool>): set<Id> { set t | t in tools && t.UpdateChart? :: t.chart }

  // What is ready for the plan stays ready for the rest of it.
  lemma ReadyRest(s: Store, tools: seq<Tool>)
    requires s.WellFormed() && tools != [] && Admitted(s, tools) && Ready(s, tools) && RunTool(s, tools[0]).Some?
    ensures Rested(s, tools[0]) && Ready(RunTool(s, tools[0]).value.0, tools[1..])
  {
    hide RunTool, Store.WellFormed, Rested;
    assert tools[0] in tools;
    RestDistinct(tools);
    forall t | t in tools[1..] ensures Rested(RunTool(s, tools[0]).value.0, t) { RestedStays(s, tools[0], t); }
  }

  lemma RestedStays(s: Store, tool: Tool, t: Tool)
    requires s.WellFormed() && RunTool(s, tool).Some? && Rested(s, t) && t.key != tool.key
    ensures Rested(RunTool(s, tool).value.0, t)
  {
    hide RunTool, Store.WellFormed, Free, Spent;
    RunToolAdds(s, tool);
    RunToolKeys(s, tool);
    if t.CreateObject? { FreeStays(s, tool, Key(t.key, Own)); }
    if t.WriteCells? && Key(t.key, Own) in s.done { SpentStays(s, tool, s.done[Key(t.key, Own)]); }
  }

  lemma SpentStays(s: Store, tool: Tool, op: Id)
    requires s.WellFormed() && RunTool(s, tool).Some? && Spent(s, op)
    ensures Spent(RunTool(s, tool).value.0, op)
  {
    hide Store.Write, WriteReport, Store.WellFormed;
    if tool.WriteCells? { WriteFacts(s, Writes(s, tool).value); }
    if tool.CreateReport? { ReportAdds(s, tool); }
  }

  lemma UnusedIsReady(s: Store, tools: seq<Tool>)
    requires Unused(s, tools)
    ensures Ready(s, tools)
  {
  }

  lemma RestDistinct(tools: seq<Tool>)
    requires tools != [] && DistinctKeys(tools)
    ensures DistinctKeys(tools[1..])
    ensures forall t :: t in tools[1..] ==> t in tools && t.key != tools[0].key
  {
    forall t | t in tools[1..] ensures t in tools && t.key != tools[0].key {
      var i :| 0 <= i < |tools| - 1 && tools[1..][i] == t;
      assert tools[i + 1] == t;
    }
  }

  lemma FreeStays(s: Store, tool: Tool, k: Key)
    requires s.WellFormed() && RunTool(s, tool).Some? && Free(s, k) && k.tool != tool.key
    ensures Free(RunTool(s, tool).value.0, k)
  {
    hide RunTool, Store.WellFormed;
    RunToolAdds(s, tool);
    RunToolKeys(s, tool);
    NewIsNew(s, tool);
  }

  lemma NewIsNew(s: Store, tool: Tool)
    requires s.WellFormed() && RunTool(s, tool).Some?
    ensures forall id :: id in RunTool(s, tool).value.0.objects ==> id in s.objects || id >= s.nextId
  {
    hide Store.Write, WriteReport, Store.WellFormed;
    if tool.WriteCells? { WriteFacts(s, Writes(s, tool).value); }
    if tool.CreateReport? { ReportShape(s, tool); ReportObjects(s, tool); }
  }

  lemma ReportObjects(s: Store, tool: Tool)
    requires tool.CreateReport?
    ensures WriteReport(s, tool).objects == s.objects
  {
    hide Store.Write, Placed;
    WriteFacts(AddSheet(s, tool.name), Placed(s.nextId, tool.text));
  }

  lemma RunToolKeys(s: Store, tool: Tool)
    requires RunTool(s, tool).Some?
    ensures var s1 := RunTool(s, tool).value.0;
            && (forall k :: k in s.keyed && k.tool != tool.key ==> k in s1.keyed && s1.keyed[k] == s.keyed[k])
            && (forall k :: k in s.done && k.tool != tool.key ==> k in s1.done && s1.done[k] == s.done[k])
  {
    hide Store.Write, WriteReport;
    if tool.WriteCells? { WriteFacts(s, Writes(s, tool).value); }
    if tool.CreateReport? { ReportKeys(s, tool); }
  }

  lemma ReportKeys(s: Store, tool: Tool)
    requires tool.CreateReport?
    ensures var w := WriteReport(s, tool);
            w.keyed == s.keyed && forall k :: k in s.done ==> k in w.done && w.done[k] == s.done[k]
  {
    hide Store.Write, Placed;
    WriteFacts(AddSheet(s, tool.name), Placed(s.nextId, tool.text));
  }

  // Whatever tool fails or cannot be written down, undoing the completed ones in
  // reverse goes through and restores the store, for every plan the planner
  // admits whose calls have not been made or are undone.
  lemma {:induction false} CompensationRestores(s: Store, tools: seq<Tool>, envs: seq<Env>)
    requires |tools| == |envs| && s.WellFormed() && NoLeak(envs) && Admitted(s, tools) && Ready(s, tools)
    ensures var run := Execute(s, tools, envs);
            var r := UndoAll(run.store, run.dones);
            r.ok && Same(s, r.store) && Back(s, r.store, Touched(run.dones)) && Touched(run.dones) <= UpdateIds(tools)
    decreases |tools|
  {
    hide RunTool, UndoTool, Back, Store.WellFormed, Broken, Same, Admitted, Ready, Rested;
    SelfBack(s);
    assert Touched([]) == {};
    if tools == [] {
    } else if envs[0].Breaks? {
      assert !envs[0].point.AfterCommit? by { assert envs[0] in envs; }
      BrokenIsBack(s, tools[0], envs[0].point);
      BackIsSame(s, Broken(s, tools[0], envs[0].point), {});
    } else if RunTool(s, tools[0]).Some? {
      var (s1, d) := RunTool(s, tools[0]).value;
      RunToolKeepsShape(s, tools[0]);
      ReadyRest(s, tools);
      AdmittedRest(s, tools);
      var rest := if envs[0].BookkeepingFails? then Run(s1, [], false) else Execute(s1, tools[1..], envs[1..]);
      if envs[0].BookkeepingFails? {
        SelfBack(s1);
        assert [d] + [] == [d];
      } else {
        assert NoLeak(envs[1..]) by { assert forall e :: e in envs[1..] ==> e in envs; }
        CompensationRestores(s1, tools[1..], envs[1..]);
      }
      var run := Execute(s, tools, envs);
      assert run.dones == [d] + rest.dones && run.store == rest.store;
      UndoAllFirst(run.store, d, rest.dones);
      TouchedFirst(d, rest.dones);
      LaterUpdates(s, tools);
      UndoOne(s, tools[0], UndoAll(rest.store, rest.dones).store, Touched(rest.dones));
      BackIsSame(s, UndoTool(UndoAll(rest.store, rest.dones).store, d).value, Touched(run.dones));
    }
  }

  lemma UnusedOne(s: Store, tools: seq<Tool>)
    requires tools != [] && Unused(s, tools)
    ensures Unused(s, [tools[0]])
  {
  }

  // Later updates are of older charts than a tool creates, and of other charts
  // than it updates.
  lemma LaterUpdates(s: Store, tools: seq<Tool>)
    requires tools != [] && Admitted(s, tools) && s.WellFormed() && RunTool(s, tools[0]).Some?
    ensures s.nextId !in UpdateIds(tools[1..]) && (tools[0].UpdateChart? ==> tools[0].chart !in UpdateIds(tools[1..]))
    ensures UpdateIds(tools[1..]) <= UpdateIds(tools)
    ensures Touched([RunTool(s, tools[0]).value.1]) <= UpdateIds(tools)
  {
    forall t | t in tools[1..] ensures t in tools && (tools[0].UpdateChart? && t.UpdateChart? ==> t.chart != tools[0].chart) {
      var i :| 0 <= i < |tools| - 1 && tools[1..][i] == t;
      assert tools[i + 1] == t;
    }
    assert tools[0] in tools;
  }

  lemma SelfBack(s: Store)
    requires s.WellFormed()
    ensures Back(s, s, {}) && Same(s, s)
  {
  }

  lemma BackIsSame(s: Store, t: Store, touched: set<Id>)
    requires Back(s, t, touched)
    ensures Same(s, t)
  {
  }

  lemma TouchedFirst(d: Done, rest: seq<Done>)
    ensures Touched([d] + rest) == Touched(rest) + Touched([d])
  {
    assert forall x :: x in [d] + rest <==> x == d || x in rest;
  }
}
