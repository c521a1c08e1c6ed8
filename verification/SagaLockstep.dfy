/**
  One plan run on two stores that look alike.  On the second store some of the
  plan's cell operations may have been made before: their keys are answered
  without writing, which goes unnoticed as long as they would change no cell.
*/
module SagaLockstep {
  import opened CellAddress
  import opened Saga
  import opened SagaRetry
  import opened SagaEffect

  // Objects stand on old sheets or on sheets there are.
  ghost predicate Grounded(lo: Id, s: Store) {
    forall i :: i in s.objects ==> s.objects[i].sheet < lo || s.objects[i].sheet in s.sheets
  }

  ghost predicate RevisionAlike(r: Renaming, a: Store, b: Store, i: Id) {
    i in a.objects && r.to(i) in b.objects ==> b.objects[r.to(i)].revision == a.objects[i].revision
  }

  // The stores look alike, revisions included, and `made` are the keys only b
  // knows.
  ghost predicate Matched(lo: Id, r: Renaming, a: Store, b: Store, made: set<Key>) {
    && a.WellFormed() && b.WellFormed() && lo <= a.nextId && lo <= b.nextId && Grounded(lo, a)
    && Alike(lo, r, a, b) && (forall i: Id :: RevisionAlike(r, a, b, i))
    && b.done.Keys == a.done.Keys + made
  }

  // -------- a new identifier on both sides --------

  function Swap(x: Id, y: Id, z: Id): Id { if z == x then y else if z == y then x else z }

  // The renaming that also takes i to j.
  function Joined(r: Renaming, i: Id, j: Id): Renaming {
    Renaming(k => Swap(r.to(i), j, r.to(k)), k => r.back(Swap(r.to(i), j, k)))
  }

  lemma JoinedTo(r: Renaming, i: Id, j: Id, k: Id)
    ensures Joined(r, i, j).to(k) == Swap(r.to(i), j, r.to(k)) && Joined(r, i, j).back(k) == r.back(Swap(r.to(i), j, k))
  {
  }

  lemma JoinedRenames(lo: Id, r: Renaming, i: Id, j: Id, k: Id)
    requires Renames(lo, r) && i >= lo && j >= lo
    ensures RenamesAt(lo, Joined(r, i, j), k)
  {
    hide Joined;
    NewStaysNew(lo, r, i);
    var q := Joined(r, i, j);
    JoinedTo(r, i, j, k);
    JoinedTo(r, i, j, q.to(k));
    JoinedTo(r, i, j, q.back(k));
    assert RenamesAt(lo, r, k) && RenamesAt(lo, r, Swap(r.to(i), j, k));
  }

  // Where the two new identifiers are not yet in use nothing else is renamed anew.
  lemma JoinedKeeps(lo: Id, r: Renaming, a: Store, b: Store, k: Id)
    requires a.WellFormed() && b.WellFormed() && Alike(lo, r, a, b)
    requires k in a.sheets || k in a.objects || (k < lo <= a.nextId && lo <= b.nextId)
    ensures Joined(r, a.nextId, b.nextId).to(k) == r.to(k) && k != a.nextId
  {
    hide Joined;
    JoinedTo(r, a.nextId, b.nextId, k);
    assert RenamesAt(lo, r, k) && RenamesAt(lo, r, a.nextId) && SheetAlike(r, a, b, k) && ObjectAlike(r, a, b, k);
  }

  lemma JoinedNew(lo: Id, r: Renaming, a: Store, b: Store)
    ensures Joined(r, a.nextId, b.nextId).to(a.nextId) == b.nextId
  {
  }

  // Identifiers nothing is known by stay such.
  lemma JoinedUnused(lo: Id, r: Renaming, a: Store, b: Store, k: Id)
    requires a.WellFormed() && b.WellFormed() && Alike(lo, r, a, b) && lo <= a.nextId && lo <= b.nextId && k != a.nextId
    ensures var q := Joined(r, a.nextId, b.nextId);
            && (k !in a.sheets ==> q.to(k) !in b.sheets) && (k !in a.objects ==> q.to(k) !in b.objects) && q.to(k) != b.nextId
  {
    hide Joined;
    JoinedTo(r, a.nextId, b.nextId, k);
    assert RenamesAt(lo, r, k) && RenamesAt(lo, r, a.nextId);
    assert SheetAlike(r, a, b, k) && ObjectAlike(r, a, b, k) && SheetAlike(r, a, b, a.nextId) && ObjectAlike(r, a, b, a.nextId);
  }

  // -------- the pieces of a call --------

  lemma SheetMatched(lo: Id, r: Renaming, a: Store, b: Store, made: set<Key>, name: string)
    requires Matched(lo, r, a, b, made)
    ensures Matched(lo, Joined(r, a.nextId, b.nextId), AddSheet(a, name), AddSheet(b, name), made)
  {
    hide Joined, RenamesAt, SheetAlike, ObjectAlike, CellAlike, RevisionAlike, Store.WellFormed;
    var q, a1, b1 := Joined(r, a.nextId, b.nextId), AddSheet(a, name), AddSheet(b, name);
    forall i: Id ensures RenamesAt(lo, q, i) && SheetAlike(q, a1, b1, i) && ObjectAlike(q, a1, b1, i) && RevisionAlike(q, a1, b1, i) {
      JoinedRenames(lo, r, a.nextId, b.nextId, i);
      SheetMatchedAt(lo, r, a, b, name, i);
    }
    forall c: Cell ensures CellAlike(lo, q, a1, b1, c) { SheetMatchedCell(lo, r, a, b, name, c); }
    SheetShape(a, name);
    SheetShape(b, name);
  }

  lemma SheetShape(s: Store, name: string)
    requires s.WellFormed()
    ensures AddSheet(s, name).WellFormed()
  {
  }

  lemma SheetMatchedAt(lo: Id, r: Renaming, a: Store, b: Store, name: string, i: Id)
    requires a.WellFormed() && b.WellFormed() && lo <= a.nextId && lo <= b.nextId && Grounded(lo, a)
    requires Alike(lo, r, a, b) && RevisionAlike(r, a, b, i)
    ensures var q, a1, b1 := Joined(r, a.nextId, b.nextId), AddSheet(a, name), AddSheet(b, name);
            SheetAlike(q, a1, b1, i) && ObjectAlike(q, a1, b1, i) && RevisionAlike(q, a1, b1, i)
  {
    hide Joined, SheetAlike, ObjectAlike, RevisionAlike, Alike, Store.WellFormed;
    if i == a.nextId {
      JoinedNew(lo, r, a, b);
      NewSheetAt(Joined(r, a.nextId, b.nextId), a, b, name);
    } else {
      OthersKeep(lo, r, a, b, i);
      OldAt(r, Joined(r, a.nextId, b.nextId), a, b, AddSheet(a, name), AddSheet(b, name), i);
    }
  }

  lemma NewSheetAt(q: Renaming, a: Store, b: Store, name: string)
    requires a.WellFormed() && b.WellFormed() && q.to(a.nextId) == b.nextId
    ensures var a1, b1 := AddSheet(a, name), AddSheet(b, name);
            SheetAlike(q, a1, b1, a.nextId) && ObjectAlike(q, a1, b1, a.nextId) && RevisionAlike(q, a1, b1, a.nextId)
  {
  }

  // For an identifier other than the new ones: it is used as before, under the same
  // name if it is used at all.
  ghost predicate Kept(r: Renaming, q: Renaming, a: Store, b: Store, i: Id) {
    && SheetAlike(r, a, b, i) && ObjectAlike(r, a, b, i) && q.to(i) != b.nextId
    && (i !in a.sheets ==> q.to(i) !in b.sheets) && (i !in a.objects ==> q.to(i) !in b.objects)
    && (i in a.sheets || i in a.objects ==> q.to(i) == r.to(i))
    && (i in a.objects ==> q.to(a.objects[i].sheet) == r.to(a.objects[i].sheet))
  }

  lemma OthersKeep(lo: Id, r: Renaming, a: Store, b: Store, i: Id)
    requires a.WellFormed() && b.WellFormed() && lo <= a.nextId && lo <= b.nextId && Grounded(lo, a) && Alike(lo, r, a, b) && i != a.nextId
    ensures Kept(r, Joined(r, a.nextId, b.nextId), a, b, i)
  {
    hide Joined, SheetAlike, ObjectAlike, CellAlike, RenamesAt, Store.WellFormed;
    JoinedUnused(lo, r, a, b, i);
    if i in a.sheets || i in a.objects { JoinedKeeps(lo, r, a, b, i); }
    if i in a.objects { JoinedKeeps(lo, r, a, b, a.objects[i].sheet); }
  }

  // The identifier stands for the same in both stores.
  predicate SameAt(s: Store, s1: Store, i: Id) {
    && (i in s1.sheets <==> i in s.sheets) && (i in s.sheets ==> s1.sheets[i] == s.sheets[i])
    && (i in s1.objects <==> i in s.objects) && (i in s.objects ==> s1.objects[i] == s.objects[i])
  }

  lemma OldAt(r: Renaming, q: Renaming, a: Store, b: Store, a1: Store, b1: Store, i: Id)
    requires Kept(r, q, a, b, i) && RevisionAlike(r, a, b, i) && SameAt(a, a1, i) && SameAt(b, b1, q.to(i))
    ensures SheetAlike(q, a1, b1, i) && ObjectAlike(q, a1, b1, i) && RevisionAlike(q, a1, b1, i)
  {
  }

  lemma SheetMatchedCell(lo: Id, r: Renaming, a: Store, b: Store, name: string, c: Cell)
    requires a.WellFormed() && b.WellFormed() && lo <= a.nextId && lo <= b.nextId && Alike(lo, r, a, b)
    ensures CellAlike(lo, Joined(r, a.nextId, b.nextId), AddSheet(a, name), AddSheet(b, name), c)
  {
    hide Joined, Alike, Store.WellFormed, Store.Get;
    JoinedNew(lo, r, a, b);
    AlikeCell(lo, r, a, b, c);
    SheetCells(a, name, c);
    SheetCells(b, name, MovedCell(Joined(r, a.nextId, b.nextId), c));
    if c.sheet != a.nextId && (c.sheet < lo || c.sheet in a.sheets) { JoinedKeeps(lo, r, a, b, c.sheet); }
  }

  lemma AlikeCell(lo: Id, r: Renaming, a: Store, b: Store, c: Cell)
    requires Alike(lo, r, a, b)
    ensures CellAlike(lo, r, a, b, c)
  {
  }

  lemma SheetCells(s: Store, name: string, c: Cell)
    requires s.WellFormed()
    ensures AddSheet(s, name).Get(c) == s.Get(c) && (c.sheet >= s.nextId ==> s.Get(c) == "")
  {
  }

  lemma ObjectMatched(lo: Id, r: Renaming, a: Store, b: Store, made: set<Key>, key: Key, kind: Kind, content: string, sa: Id, sb: Id)
    requires Matched(lo, r, a, b, made) && (sa < lo || sa in a.sheets) && r.to(sa) == sb && sa < a.nextId && sb < b.nextId
    ensures Matched(lo, Joined(r, a.nextId, b.nextId), AddObject(a, key, kind, content, sa), AddObject(b, key, kind, content, sb), made)
  {
    hide Joined, RenamesAt, SheetAlike, ObjectAlike, CellAlike, RevisionAlike, Store.WellFormed;
    var q, a1, b1 := Joined(r, a.nextId, b.nextId), AddObject(a, key, kind, content, sa), AddObject(b, key, kind, content, sb);
    forall i: Id ensures RenamesAt(lo, q, i) && SheetAlike(q, a1, b1, i) && ObjectAlike(q, a1, b1, i) && RevisionAlike(q, a1, b1, i) {
      JoinedRenames(lo, r, a.nextId, b.nextId, i);
      ObjectMatchedAt(lo, r, a, b, key, kind, content, sa, sb, i);
    }
    forall c: Cell ensures CellAlike(lo, q, a1, b1, c) { ObjectMatchedCell(lo, r, a, b, key, kind, content, sa, sb, c); }
    ObjectShape(a, key, kind, content, sa);
    ObjectShape(b, key, kind, content, sb);
  }

  lemma ObjectMatchedAt(lo: Id, r: Renaming, a: Store, b: Store, key: Key, kind: Kind, content: string, sa: Id, sb: Id, i: Id)
    requires a.WellFormed() && b.WellFormed() && lo <= a.nextId && lo <= b.nextId && Grounded(lo, a)
    requires Alike(lo, r, a, b) && RevisionAlike(r, a, b, i) && (sa < lo || sa in a.sheets) && r.to(sa) == sb
    ensures var q, a1, b1 := Joined(r, a.nextId, b.nextId), AddObject(a, key, kind, content, sa), AddObject(b, key, kind, content, sb);
            SheetAlike(q, a1, b1, i) && ObjectAlike(q, a1, b1, i) && RevisionAlike(q, a1, b1, i)
  {
    hide Joined, SheetAlike, ObjectAlike, RevisionAlike, Alike, Store.WellFormed;
    if i == a.nextId {
      JoinedNew(lo, r, a, b);
      JoinedKeeps(lo, r, a, b, sa);
      NewObjectAt(Joined(r, a.nextId, b.nextId), a, b, key, kind, content, sa, sb);
    } else {
      OthersKeep(lo, r, a, b, i);
      OldAt(r, Joined(r, a.nextId, b.nextId), a, b, AddObject(a, key, kind, content, sa), AddObject(b, key, kind, content, sb), i);
    }
  }

  lemma NewObjectAt(q: Renaming, a: Store, b: Store, key: Key, kind: Kind, content: string, sa: Id, sb: Id)
    requires a.WellFormed() && b.WellFormed() && q.to(a.nextId) == b.nextId && q.to(sa) == sb
    ensures var a1, b1 := AddObject(a, key, kind, content, sa), AddObject(b, key, kind, content, sb);
            SheetAlike(q, a1, b1, a.nextId) && ObjectAlike(q, a1, b1, a.nextId) && RevisionAlike(q, a1, b1, a.nextId)
  {
  }

  lemma ObjectMatchedCell(lo: Id, r: Renaming, a: Store, b: Store, key: Key, kind: Kind, content: string, sa: Id, sb: Id, c: Cell)
    requires a.WellFormed() && b.WellFormed() && lo <= a.nextId && lo <= b.nextId && Alike(lo, r, a, b)
    ensures CellAlike(lo, Joined(r, a.nextId, b.nextId), AddObject(a, key, kind, content, sa), AddObject(b, key, kind, content, sb), c)
  {
    hide Joined, Alike, Store.WellFormed, Store.Get;
    AlikeCell(lo, r, a, b, c);
    ObjectCells(a, key, kind, content, sa, c);
    ObjectCells(b, key, kind, content, sb, MovedCell(r, c));
    if c.sheet < lo || c.sheet in a.sheets { JoinedKeeps(lo, r, a, b, c.sheet); }
  }

  lemma ObjectCells(s: Store, key: Key, kind: Kind, content: string, sheet: Id, c: Cell)
    ensures AddObject(s, key, kind, content, sheet).Get(c) == s.Get(c)
  {
  }

  // What writing under a key leaves.
  lemma OnceFacts(s: Store, key: Key, sheet: Id, text: Text)
    requires s.WellFormed() && sheet < s.nextId
    ensures var s1 := s.WriteOnce(key, Placed(sheet, text));
            && s1.WellFormed() && s.nextId <= s1.nextId
            && s1.objects == s.objects && s1.sheets == s.sheets && s1.keyed == s.keyed && s1.done.Keys == s.done.Keys + {key}
            && forall c: Cell :: s1.Get(c) == if key !in s.done && c.sheet == sheet && (c.row, c.column) in text then text[(c.row, c.column)] else s.Get(c)
  {
    hide Store.Write, Store.WellFormed, Placed, Store.Get;
    var writes := Placed(sheet, text);
    WriteFacts(s, writes);
    PlacedOnSheet(sheet, text);
    OnceShape(s, key, writes);
    forall c: Cell
      ensures s.WriteOnce(key, writes).Get(c)
           == if key !in s.done && c.sheet == sheet && (c.row, c.column) in text then text[(c.row, c.column)] else s.Get(c)
    {
      PlacedAt(sheet, text, c);
      DoneGet(s.Write(writes), s.done[key := s.nextId], c);
    }
  }

  lemma DoneGet(s: Store, done: map<Key, Id>, c: Cell)
    ensures s.(done := done).Get(c) == s.Get(c)
  {
  }

  lemma PlacedOnSheet(sheet: Id, text: Text)
    ensures forall c :: c in Placed(sheet, text) ==> c.sheet == sheet
  {
  }

  lemma PlacedAt(sheet: Id, text: Text, c: Cell)
    ensures c in Placed(sheet, text) <==> c.sheet == sheet && (c.row, c.column) in text
    ensures c in Placed(sheet, text) ==> Placed(sheet, text)[c] == text[(c.row, c.column)]
  {
    if c.sheet == sheet && (c.row, c.column) in text {
      var p := (c.row, c.column);
      assert p in text && Cell(sheet, p.0, p.1) == c;
    }
  }

  // The text says what is there already.
  predicate SaysNothingNew(s: Store, sheet: Id, text: Text) {
    forall p :: p in text ==> s.Get(Cell(sheet, p.0, p.1)) == text[p]
  }

  lemma TextMatched(lo: Id, r: Renaming, a: Store, b: Store, made: set<Key>, key: Key, sa: Id, sb: Id, text: Text)
    requires Matched(lo, r, a, b, made) && (sa < lo || sa in a.sheets) && r.to(sa) == sb && sa < a.nextId && sb < b.nextId
    requires key in made && key !in a.done ==> SaysNothingNew(a, sa, text)
    ensures Matched(lo, r, a.WriteOnce(key, Placed(sa, text)), b.WriteOnce(key, Placed(sb, text)), made)
  {
    hide RenamesAt, SheetAlike, ObjectAlike, CellAlike, RevisionAlike, Store.WellFormed, Store.WriteOnce, SaysNothingNew;
    var a1, b1 := a.WriteOnce(key, Placed(sa, text)), b.WriteOnce(key, Placed(sb, text));
    OnceFacts(a, key, sa, text);
    OnceFacts(b, key, sb, text);
    forall i: Id ensures SheetAlike(r, a1, b1, i) && ObjectAlike(r, a1, b1, i) && RevisionAlike(r, a1, b1, i) {
      TextMatchedAt(r, a, b, a1, b1, i);
    }
    forall c: Cell ensures CellAlike(lo, r, a1, b1, c) { TextMatchedCell(lo, r, a, b, made, key, sa, sb, text, c); }
  }

  lemma TextMatchedAt(r: Renaming, a: Store, b: Store, a1: Store, b1: Store, i: Id)
    requires SheetAlike(r, a, b, i) && ObjectAlike(r, a, b, i) && RevisionAlike(r, a, b, i)
    requires a1.objects == a.objects && a1.sheets == a.sheets && b1.objects == b.objects && b1.sheets == b.sheets
    ensures SheetAlike(r, a1, b1, i) && ObjectAlike(r, a1, b1, i) && RevisionAlike(r, a1, b1, i)
  {
  }

  lemma TextMatchedCell(lo: Id, r: Renaming, a: Store, b: Store, made: set<Key>, key: Key, sa: Id, sb: Id, text: Text, c: Cell)
    requires a.WellFormed() && b.WellFormed() && Alike(lo, r, a, b) && b.done.Keys == a.done.Keys + made
    requires (sa < lo || sa in a.sheets) && r.to(sa) == sb && sa < a.nextId && sb < b.nextId
    requires key in made && key !in a.done ==> SaysNothingNew(a, sa, text)
    ensures CellAlike(lo, r, a.WriteOnce(key, Placed(sa, text)), b.WriteOnce(key, Placed(sb, text)), c)
  {
    hide Store.WellFormed, Store.WriteOnce, Store.Get;
    OnceFacts(a, key, sa, text);
    OnceFacts(b, key, sb, text);
    assert CellAlike(lo, r, a, b, c) && RenamesAt(lo, r, c.sheet) && RenamesAt(lo, r, sa);
    var p := (c.row, c.column);
    if c.sheet == sa && p in text { assert Cell(sa, p.0, p.1) == c; }
  }

  lemma UpdateMatched(lo: Id, r: Renaming, a: Store, b: Store, made: set<Key>, tool: Tool)
    requires Matched(lo, r, a, b, made) && tool.UpdateChart? && tool.chart < lo
    ensures RunTool(a, tool).Some? <==> RunTool(b, tool).Some?
    ensures RunTool(a, tool).Some? ==> Matched(lo, r, RunTool(a, tool).value.0, RunTool(b, tool).value.0, made)
  {
    hide RenamesAt, SheetAlike, ObjectAlike, CellAlike, RevisionAlike, Store.WellFormed;
    UpdateAgrees(lo, r, a, b, tool);
    if RunTool(a, tool).Some? {
      var a1, b1 := RunTool(a, tool).value.0, RunTool(b, tool).value.0;
      UpdateShape(a, tool);
      UpdateShape(b, tool);
      forall i: Id ensures SheetAlike(r, a1, b1, i) && ObjectAlike(r, a1, b1, i) && RevisionAlike(r, a1, b1, i) {
        UpdateMatchedAt(lo, r, a, b, tool, i);
      }
      forall c: Cell ensures CellAlike(lo, r, a1, b1, c) { SameCells(lo, r, a, b, a1, b1, c); }
    }
  }

  lemma UpdateAgrees(lo: Id, r: Renaming, a: Store, b: Store, tool: Tool)
    requires Alike(lo, r, a, b) && tool.UpdateChart? && tool.chart < lo && RevisionAlike(r, a, b, tool.chart)
    ensures RunTool(a, tool).Some? <==> RunTool(b, tool).Some?
  {
    assert RenamesAt(lo, r, tool.chart) && ObjectAlike(r, a, b, tool.chart);
  }

  lemma UpdateMatchedAt(lo: Id, r: Renaming, a: Store, b: Store, tool: Tool, i: Id)
    requires Alike(lo, r, a, b) && tool.UpdateChart? && tool.chart < lo && RunTool(a, tool).Some? && RunTool(b, tool).Some?
    requires RevisionAlike(r, a, b, i)
    ensures var a1, b1 := RunTool(a, tool).value.0, RunTool(b, tool).value.0;
            SheetAlike(r, a1, b1, i) && ObjectAlike(r, a1, b1, i) && RevisionAlike(r, a1, b1, i)
  {
    assert RenamesAt(lo, r, tool.chart) && RenamesAt(lo, r, i) && SheetAlike(r, a, b, i) && ObjectAlike(r, a, b, i);
  }

  lemma SameCells(lo: Id, r: Renaming, a: Store, b: Store, a1: Store, b1: Store, c: Cell)
    requires CellAlike(lo, r, a, b, c) && a1.cells == a.cells && b1.cells == b.cells && a1.sheets == a.sheets
    ensures CellAlike(lo, r, a1, b1, c)
  {
  }

  // -------- one call on both --------

  // The call names sheets and charts that are older than lo.
  predicate Old(lo: Id, tool: Tool) {
    match tool
    case WriteCells(_, sheet, _, _) => sheet < lo
    case CreateObject(_, _, _, sheet) => sheet < lo
    case UpdateChart(_, chart, _, _) => chart < lo
    case CreateReport(_, _, _, _) => true
  }

  // The key a call's text is written under.
  function TextKey(tool: Tool): Key { Key(tool.key, if tool.CreateReport? then ReportText else Own) }

  predicate WritesText(tool: Tool) { tool.WriteCells? || tool.CreateReport? }

  // The call would change the text of a cell.
  ghost predicate Changes(s: Store, tool: Tool) {
    match tool
    case WriteCells(_, sheet, _, _) => Rewritten(s, tool).Some? && !SaysNothingNew(s, sheet, Rewritten(s, tool).value)
    case CreateReport(_, _, text, _) => exists p :: p in text && text[p] != ""
    case _ => false
  }

  lemma WriteRuns(s: Store, tool: Tool)
    requires tool.WriteCells?
    ensures RunTool(s, tool).Some? <==> tool.sheet in s.sheets && Rewritten(s, tool).Some?
    ensures RunTool(s, tool).Some? ==>
              RunTool(s, tool).value.0 == s.WriteOnce(TextKey(tool), Placed(tool.sheet, Rewritten(s, tool).value))
  {
    hide Rewritten, Store.WriteOnce, Placed;
  }

  lemma OldSheetAlike(lo: Id, r: Renaming, a: Store, b: Store, sheet: Id)
    requires Alike(lo, r, a, b) && sheet < lo
    ensures r.to(sheet) == sheet && (sheet in a.sheets <==> sheet in b.sheets)
  {
    assert RenamesAt(lo, r, sheet) && SheetAlike(r, a, b, sheet);
  }

  lemma SameContents(lo: Id, r: Renaming, a: Store, b: Store, sheet: Id, area: set<Place>)
    requires Alike(lo, r, a, b) && sheet < lo
    ensures Contents(a, sheet, area) == Contents(b, sheet, area)
  {
    hide Store.Get;
    forall p: Place ensures a.Get(Cell(sheet, p.0, p.1)) == b.Get(Cell(sheet, p.0, p.1)) {
      var c := Cell(sheet, p.0, p.1);
      assert CellAlike(lo, r, a, b, c) && RenamesAt(lo, r, sheet) && MovedCell(r, c) == c;
    }
  }

  lemma WriteMatched(lo: Id, r: Renaming, a: Store, b: Store, made: set<Key>, tool: Tool)
    requires Matched(lo, r, a, b, made) && tool.WriteCells? && tool.sheet < lo
    requires TextKey(tool) in made && TextKey(tool) !in a.done ==> !Changes(a, tool)
    ensures RunTool(a, tool).Some? <==> RunTool(b, tool).Some?
    ensures RunTool(a, tool).Some? ==> Matched(lo, r, RunTool(a, tool).value.0, RunTool(b, tool).value.0, made)
  {
    hide RunTool, Alike, Store.WellFormed, Store.WriteOnce, Placed, SaysNothingNew;
    OldSheetAlike(lo, r, a, b, tool.sheet);
    SameContents(lo, r, a, b, tool.sheet, tool.area);
    WriteRuns(a, tool);
    WriteRuns(b, tool);
    if RunTool(a, tool).Some? {
      TextMatched(lo, r, a, b, made, TextKey(tool), tool.sheet, tool.sheet, Rewritten(a, tool).value);
    }
  }

  lemma CreateRuns(s: Store, tool: Tool)
    requires tool.CreateObject? && Free(s, Key(tool.key, Own))
    ensures RunTool(s, tool).Some? <==> tool.sheet in s.sheets
    ensures RunTool(s, tool).Some? ==>
              RunTool(s, tool).value.0 == AddObject(s, Key(tool.key, Own), tool.kind, tool.content, tool.sheet)
  {
  }

  lemma CreateMatched(lo: Id, r: Renaming, a: Store, b: Store, made: set<Key>, tool: Tool) returns (q: Renaming)
    requires Matched(lo, r, a, b, made) && tool.CreateObject? && tool.sheet < lo
    requires Free(a, Key(tool.key, Own)) && Free(b, Key(tool.key, Own))
    ensures RunTool(a, tool).Some? <==> RunTool(b, tool).Some?
    ensures RunTool(a, tool).Some? ==> Matched(lo, q, RunTool(a, tool).value.0, RunTool(b, tool).value.0, made)
  {
    hide RunTool, Alike, Store.WellFormed, AddObject;
    OldSheetAlike(lo, r, a, b, tool.sheet);
    CreateRuns(a, tool);
    CreateRuns(b, tool);
    ObjectMatched(lo, r, a, b, made, Key(tool.key, Own), tool.kind, tool.content, tool.sheet, tool.sheet);
    q := Joined(r, a.nextId, b.nextId);
  }

  lemma TakenAlike(lo: Id, r: Renaming, a: Store, b: Store, name: string)
    requires Alike(lo, r, a, b)
    ensures a.Taken(name) <==> b.Taken(name)
  {
    if a.Taken(name) {
      var i :| i in a.sheets && a.sheets[i] == name;
      assert SheetAlike(r, a, b, i);
    }
    if b.Taken(name) {
      var j :| j in b.sheets && b.sheets[j] == name;
      assert RenamesAt(lo, r, j) && SheetAlike(r, a, b, r.back(j));
    }
  }

  lemma ReportRuns(s: Store, tool: Tool)
    requires tool.CreateReport?
    ensures RunTool(s, tool).Some? <==> !s.Taken(tool.name)
    ensures RunTool(s, tool).Some? ==>
              var w := AddSheet(s, tool.name).WriteOnce(TextKey(tool), Placed(s.nextId, tool.text));
              RunTool(s, tool).value.0
              == if tool.graph.None? then w else AddObject(w, Key(tool.key, ReportGraph), Chart, tool.graph.value, s.nextId)
  {
    hide Store.WriteOnce, Placed, AddObject;
  }

  lemma NewSheetIsEmpty(s: Store, name: string, text: Text)
    requires s.WellFormed() && forall p :: p in text ==> text[p] == ""
    ensures SaysNothingNew(AddSheet(s, name), s.nextId, text)
  {
    forall p | p in text ensures AddSheet(s, name).Get(Cell(s.nextId, p.0, p.1)) == text[p] {
      SheetCells(s, name, Cell(s.nextId, p.0, p.1));
    }
  }

  lemma ReportMatched(lo: Id, r: Renaming, a: Store, b: Store, made: set<Key>, tool: Tool) returns (q: Renaming)
    requires Matched(lo, r, a, b, made) && tool.CreateReport?
    requires TextKey(tool) in made && TextKey(tool) !in a.done ==> !Changes(a, tool)
    ensures RunTool(a, tool).Some? <==> RunTool(b, tool).Some?
    ensures RunTool(a, tool).Some? ==> Matched(lo, q, RunTool(a, tool).value.0, RunTool(b, tool).value.0, made)
  {
    hide RunTool, Alike, Store.WellFormed, Store.WriteOnce, Placed, SaysNothingNew, AddObject, AddSheet, Joined;
    TakenAlike(lo, r, a, b, tool.name);
    ReportRuns(a, tool);
    ReportRuns(b, tool);
    var a1, b1 := AddSheet(a, tool.name), AddSheet(b, tool.name);
    SheetMatched(lo, r, a, b, made, tool.name);
    q := Joined(r, a.nextId, b.nextId);
    JoinedNew(lo, r, a, b);
    SheetFacts(a, tool.name);
    SheetFacts(b, tool.name);
    if TextKey(tool) in made && TextKey(tool) !in a.done { NewSheetIsEmpty(a, tool.name, tool.text); }
    TextMatched(lo, q, a1, b1, made, TextKey(tool), a.nextId, b.nextId, tool.text);
    var a2, b2 := a1.WriteOnce(TextKey(tool), Placed(a.nextId, tool.text)), b1.WriteOnce(TextKey(tool), Placed(b.nextId, tool.text));
    OnceFacts(a1, TextKey(tool), a.nextId, tool.text);
    OnceFacts(b1, TextKey(tool), b.nextId, tool.text);
    if tool.graph.Some? {
      ObjectMatched(lo, q, a2, b2, made, Key(tool.key, ReportGraph), Chart, tool.graph.value, a.nextId, b.nextId);
      q := Joined(q, a2.nextId, b2.nextId);
    }
  }

  lemma SheetFacts(s: Store, name: string)
    ensures var w := AddSheet(s, name); s.nextId in w.sheets && w.nextId == s.nextId + 1 && w.done == s.done && w.keyed == s.keyed && w.objects == s.objects
  {
  }

  lemma ToolMatched(lo: Id, r: Renaming, a: Store, b: Store, made: set<Key>, tool: Tool) returns (q: Renaming)
    requires Matched(lo, r, a, b, made) && Old(lo, tool)
    requires tool.CreateObject? ==> Free(a, Key(tool.key, Own)) && Free(b, Key(tool.key, Own))
    requires WritesText(tool) && TextKey(tool) in made && TextKey(tool) !in a.done ==> !Changes(a, tool)
    ensures RunTool(a, tool).Some? <==> RunTool(b, tool).Some?
    ensures RunTool(a, tool).Some? ==> Matched(lo, q, RunTool(a, tool).value.0, RunTool(b, tool).value.0, made)
  {
    hide RunTool, Matched, Changes;
    q := r;
    match tool {
      case WriteCells(_, _, _, _) => WriteMatched(lo, r, a, b, made, tool);
      case CreateObject(_, _, _, _) => q := CreateMatched(lo, r, a, b, made, tool);
      case UpdateChart(_, _, _, _) => UpdateMatched(lo, r, a, b, made, tool);
      case CreateReport(_, _, _, _) => q := ReportMatched(lo, r, a, b, made, tool);
    }
  }

  // -------- a whole plan on both --------

  // At its turn, every call whose text only the second store knows changes nothing.
  ghost predicate Unnoticed(s: Store, made: set<Key>, tools: seq<Tool>)
    decreases |tools|
  {
    tools == []
    || (&& (WritesText(tools[0]) && TextKey(tools[0]) in made && TextKey(tools[0]) !in s.done ==> !Changes(s, tools[0]))
        && (RunTool(s, tools[0]).Some? ==> Unnoticed(RunTool(s, tools[0]).value.0, made, tools[1..])))
  }

  ghost predicate AllFree(s: Store, tools: seq<Tool>) {
    forall t :: t in tools && t.CreateObject? ==> Free(s, Key(t.key, Own))
  }

  ghost predicate AllOld(lo: Id, tools: seq<Tool>) { forall t :: t in tools ==> Old(lo, t) }

  // The plan goes through on both or on neither, and leaves stores that look alike.
  lemma {:induction false} RunMatched(lo: Id, r: Renaming, a: Store, b: Store, made: set<Key>, tools: seq<Tool>)
    requires Matched(lo, r, a, b, made) && AllOld(lo, tools) && DistinctKeys(tools) && AllFree(a, tools) && AllFree(b, tools)
    requires Unnoticed(a, made, tools)
    ensures After(a, tools).ok <==> After(b, tools).ok
    ensures After(a, tools).ok ==> SameEffect(lo, After(a, tools).store, After(b, tools).store)
    decreases |tools|
  {
    hide RunTool, Matched, Saga.Execute, Alike, Changes;
    if tools == [] {
      Nothing(a);
      Nothing(b);
      MatchedIsAlike(lo, r, a, b, made);
    } else {
      var tool, rest := tools[0], tools[1..];
      assert tool in tools;
      var q := ToolMatched(lo, r, a, b, made, tool);
      AfterFirst(a, tools);
      AfterFirst(b, tools);
      if RunTool(a, tool).Some? {
        MatchedShape(lo, r, a, b, made);
        FreeLater(a, tools);
        FreeLater(b, tools);
        RestDistinct(tools);
        RunMatched(lo, q, RunTool(a, tool).value.0, RunTool(b, tool).value.0, made, rest);
      }
    }
  }

  lemma MatchedIsAlike(lo: Id, r: Renaming, a: Store, b: Store, made: set<Key>)
    requires Matched(lo, r, a, b, made)
    ensures SameEffect(lo, a, b)
  {
    hide Alike;
  }

  lemma MatchedShape(lo: Id, r: Renaming, a: Store, b: Store, made: set<Key>)
    requires Matched(lo, r, a, b, made)
    ensures a.WellFormed() && b.WellFormed()
  {
  }

  lemma AfterFirst(s: Store, tools: seq<Tool>)
    requires tools != []
    ensures After(s, tools).ok <==> RunTool(s, tools[0]).Some? && After(RunTool(s, tools[0]).value.0, tools[1..]).ok
    ensures RunTool(s, tools[0]).Some? ==> After(s, tools).store == After(RunTool(s, tools[0]).value.0, tools[1..]).store
  {
    hide RunTool;
    assert AllFine(|tools|)[1..] == AllFine(|tools| - 1);
  }

  lemma FreeLater(s: Store, tools: seq<Tool>)
    requires s.WellFormed() && tools != [] && DistinctKeys(tools) && AllFree(s, tools) && RunTool(s, tools[0]).Some?
    ensures AllFree(RunTool(s, tools[0]).value.0, tools[1..])
  {
    hide RunTool, Store.WellFormed;
    RestDistinct(tools);
    forall t | t in tools[1..] && t.CreateObject? ensures Free(RunTool(s, tools[0]).value.0, Key(t.key, Own)) {
      FreeStays(s, tools[0], Key(t.key, Own));
    }
  }

}
