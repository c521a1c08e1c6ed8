/**
  Automation runs as rows that callers, recoverers and schedulers step through
  guarded statements, with a crash or a retry possible between any two of them.

  A step is one SQL statement or transaction, one answer of the workbook store,
  or something a caller learns.  What callers have in hand survives only as the
  sets `holders`, `heard` and so on: a caller that once saw a running run may
  act on it at any later time, and one that crashes simply never acts again.
*/
module Automation {
  import opened CellAddress

  type Id = nat

  datatype Actor = User(name: string) | SchedulerActor

  // Idempotency keys, by who makes them.
  datatype Key = Requested(text: string) | Scheduled(due: int) | Triggered(op: Id) | TriggerFailed(op: Id) | TriggerRate(hour: int)

  datatype Status = Running | Succeeded | Skipped | Failed(conflict: bool) | Undoing | Undone

  datatype Run = Run(automation: Id, workbook: Id, actor: Actor, key: Key, operation: Option<Id>, scheduledFor: Option<int>,
                     status: Status, counted: bool, base: int, startedAt: int, undoKey: Option<string>)

  // The store's idempotency keys for a run's mutation and for its undo.
  datatype StoreKey = ForRun(run: Id) | ForUndo(run: Id)

  // `landed` lists the mutations the store has applied, in order.
  datatype Book = Book(version: int, landed: seq<StoreKey>)

  datatype Definition = Definition(revision: int, enabled: bool, deleted: bool, nextRunAt: Option<int>)

  datatype State = State(
    runs: map<Id, Run>,
    books: map<Id, Book>,
    items: map<Id, Definition>,
    clock: int,
    holders: set<Id>,              // runs some caller is executing
    heard: set<Id>,                // runs whose mutation some caller was told of
    conflicted: set<Id>,           // runs some caller was refused for a version conflict
    refused: set<Id>,              // runs some caller was refused for another terminal error
    undoHolders: set<Id>,
    undoHeard: set<Id>,
    confirmed: set<(Id, int)>,     // due times some scheduler has found or written a row for
    moved: set<(Id, int, int)>)    // (automation, revision, due) an advance has left behind
  {
    function BookOf(w: Id): Book { if w in books then books[w] else Book(1, []) }

    predicate Landed(k: StoreKey) { k.run in runs && k in BookOf(runs[k.run].workbook).landed }

    function Set(id: Id, status: Status): State {
      if id in runs then this.(runs := runs[id := runs[id].(status := status)]) else this
    }

    function Land(w: Id, k: StoreKey): State {
      this.(books := books[w := Book(BookOf(w).version + 1, BookOf(w).landed + [k])])
    }
  }

  datatype Step =
    | Insert(id: Id, run: Run, limit: int, revision: Option<int>)
    | Pick(id: Id)
    | LandRun(id: Id, told: bool)
    | ReplayRun(id: Id)
    | Conflict(id: Id)
    | Refuse(id: Id)
    | Succeed(id: Id)
    | Fail(id: Id, conflict: bool)
    | ClaimUndo(id: Id, undoKey: string)
    | PickUndo(id: Id, undoKey: string)
    | LandUndo(id: Id, told: bool)
    | ReplayUndo(id: Id)
    | ResetUndo(id: Id)
    | CompleteUndo(id: Id, undoKey: string)
    | Edit(workbook: Id)
    | Tick(now: int)
    | Define(item: Id, definition: Definition)
    | Confirm(item: Id, due: int)
    | Advance(item: Id, seen: int, due: int, now: int, next: int)

  // The unique indexes on runs.
  predicate Clashes(a: Run, b: Run) {
    && a.automation == b.automation
    && (|| (a.actor == b.actor && a.key == b.key)
        || (a.operation.Some? && a.operation == b.operation)
        || (a.scheduledFor.Some? && a.scheduledFor == b.scheduledFor))
  }

  // Runs of a workbook that count toward its rate and started in [from, to].
  function Counted(s: State, w: Id, from: int, to: int): set<Id> {
    set id | id in s.runs && s.runs[id].workbook == w && s.runs[id].counted && from <= s.runs[id].startedAt <= to
  }

  const HOUR := 3600

  // What insertRun checks before its row goes in.  `delay` bounds how long
  // before the insertion the caller may have read its clock.
  predicate MayInsert(s: State, id: Id, run: Run, limit: int, revision: Option<int>, delay: nat) {
    && id !in s.runs
    && (forall other :: other in s.runs ==> !Clashes(run, s.runs[other]))
    && (revision.Some? ==> run.automation in s.items && !s.items[run.automation].deleted
                           && s.items[run.automation].enabled && s.items[run.automation].revision == revision.value)
    && (limit > 0 ==> |Counted(s, run.workbook, s.clock - HOUR, s.clock)| < limit)
    && s.clock - delay <= run.startedAt <= s.clock
    && run.base <= s.BookOf(run.workbook).version
    && (run.status.Running? || run.status.Skipped? || run.status == Failed(false))
    && (run.counted ==> limit > 0)
    && (run.key.Scheduled? ==> run.scheduledFor == Some(run.key.due))
  }

  ghost predicate Enabled(s: State, step: Step, limit: int, delay: nat) {
    match step
    case Insert(id, run, l, revision) => MayInsert(s, id, run, l, revision, delay) && (l > 0 ==> l == limit)
    case Pick(id) => id in s.runs && s.runs[id].status.Running?
    case LandRun(id, _) =>
      id in s.holders && id in s.runs && !s.Landed(ForRun(id)) && s.BookOf(s.runs[id].workbook).version == s.runs[id].base
    case ReplayRun(id) => id in s.holders && s.Landed(ForRun(id))
    case Conflict(id) =>
      id in s.holders && id in s.runs && !s.Landed(ForRun(id)) && s.BookOf(s.runs[id].workbook).version != s.runs[id].base
    case Refuse(id) => id in s.holders && id in s.runs
    case Succeed(id) => id in s.heard && id in s.runs && s.runs[id].status.Running?
    case Fail(id, conflict) => id in (if conflict then s.conflicted else s.refused) && id in s.runs && s.runs[id].status.Running?
    case ClaimUndo(id, _) => id in s.runs && s.runs[id].status.Succeeded?
    case PickUndo(id, key) => id in s.runs && s.runs[id].status.Undoing? && s.runs[id].undoKey == Some(key)
    case LandUndo(id, _) => id in s.undoHolders && id in s.runs && !s.Landed(ForUndo(id))
    case ReplayUndo(id) => id in s.undoHolders && s.Landed(ForUndo(id))
    case ResetUndo(id) => id in s.undoHolders && id in s.runs && s.runs[id].status.Undoing?
    case CompleteUndo(id, key) => id in s.undoHeard && id in s.runs && s.runs[id].status.Undoing? && s.runs[id].undoKey == Some(key)
    case Edit(_) => true
    case Tick(now) => s.clock <= now
    case Define(a, d) => if a in s.items then d.revision == s.items[a].revision + 1 && !s.items[a].deleted else d.revision == 1
    case Confirm(a, due) => HasRow(s, a, due)
    case Advance(a, revision, due, now, next) =>
      && (a, due) in s.confirmed && due < next && now < next
      && a in s.items && s.items[a].revision == revision && s.items[a].nextRunAt == Some(due) && !s.items[a].deleted
  }

  function After(s: State, step: Step): State {
    match step
    case Insert(id, run, _, _) =>
      s.(runs := s.runs[id := run], holders := if run.status.Running? then s.holders + {id} else s.holders)
    case Pick(id) => s.(holders := s.holders + {id})
    case LandRun(id, told) =>
      if id !in s.runs then s
      else s.Land(s.runs[id].workbook, ForRun(id)).(heard := if told then s.heard + {id} else s.heard)
    case ReplayRun(id) => s.(heard := s.heard + {id})
    case Conflict(id) => s.(conflicted := s.conflicted + {id})
    case Refuse(id) => s.(refused := s.refused + {id})
    case Succeed(id) => s.Set(id, Succeeded)
    case Fail(id, conflict) => s.Set(id, Failed(conflict))
    case ClaimUndo(id, key) =>
      if id !in s.runs then s
      else s.(runs := s.runs[id := s.runs[id].(status := Undoing, undoKey := Some(key))], undoHolders := s.undoHolders + {id})
    case PickUndo(id, _) => s.(undoHolders := s.undoHolders + {id})
    case LandUndo(id, told) =>
      if id !in s.runs then s
      else s.Land(s.runs[id].workbook, ForUndo(id)).(undoHeard := if told then s.undoHeard + {id} else s.undoHeard)
    case ReplayUndo(id) => s.(undoHeard := s.undoHeard + {id})
    case ResetUndo(id) => s.Set(id, Succeeded)
    case CompleteUndo(id, _) => s.Set(id, Undone)
    case Edit(w) => s.(books := s.books[w := s.BookOf(w).(version := s.BookOf(w).version + 1)])
    case Tick(now) => s.(clock := now)
    case Define(a, d) => s.(items := s.items[a := d])
    case Confirm(a, due) => s.(confirmed := s.confirmed + {(a, due)})
    case Advance(a, revision, due, _, next) =>
      if a !in s.items then s
      else s.(items := s.items[a := s.items[a].(nextRunAt := Some(next))], moved := s.moved + {(a, revision, due)})
  }

  // Every run of the whole system: any steps, in any order, each enabled.
  ghost predicate Path(s: State, steps: seq<Step>, t: State, limit: int, delay: nat)
    decreases |steps|
  {
    if steps == [] then s == t
    else Enabled(s, steps[0], limit, delay) && Path(After(s, steps[0]), steps[1..], t, limit, delay)
  }

  ghost predicate Initial(s: State) {
    && s.runs == map[] && s.holders == {} && s.heard == {} && s.conflicted == {} && s.refused == {}
    && s.undoHolders == {} && s.undoHeard == {} && s.confirmed == {} && s.moved == {}
    && (forall w :: w in s.books ==> s.books[w].landed == [])
  }

  // -------- what every step keeps --------

  // One row per key, per trigger operation and per due slot of an automation.
  ghost predicate RowsUnique(s: State) {
    forall a, b :: a in s.runs && b in s.runs && a != b ==> !Clashes(s.runs[a], s.runs[b])
  }

  predicate NoRepeats(log: seq<StoreKey>) { forall i, j :: 0 <= i < j < |log| ==> log[i] != log[j] }

  // No mutation is in a log twice, and each belongs to a run of that workbook.
  ghost predicate LogSound(s: State) {
    && (forall w :: w in s.books ==> NoRepeats(s.books[w].landed))
    && (forall w, k :: w in s.books && k in s.books[w].landed ==> k.run in s.runs && s.runs[k.run].workbook == w)
  }

  // Callers act on runs that exist, and a run never starts from a version the
  // workbook has not reached.
  ghost predicate HandsSound(s: State) {
    && s.holders <= s.runs.Keys && s.undoHolders <= s.runs.Keys && s.heard <= s.runs.Keys && s.undoHeard <= s.runs.Keys
    && s.conflicted <= s.runs.Keys
    && (forall id :: id in s.runs ==> s.runs[id].base <= s.BookOf(s.runs[id].workbook).version)
  }

  ghost predicate LedgerSound(s: State) { LogSound(s) && HandsSound(s) }

  ghost predicate HeardSound(s: State) {
    && (forall id :: id in s.runs && s.Landed(ForRun(id)) ==> id in s.holders)
    && (forall id :: id in s.heard ==> s.Landed(ForRun(id)))
    && (forall id :: id in s.conflicted ==>
                       id in s.runs && !s.Landed(ForRun(id)) && s.BookOf(s.runs[id].workbook).version > s.runs[id].base)
  }

  ghost predicate StatusSound(s: State) {
    && (forall id :: id in s.runs && s.runs[id].status == Failed(true) ==> id in s.conflicted)
    && (forall id :: id in s.runs && s.runs[id].status.Skipped? ==> id !in s.holders)
    && (forall id :: id in s.runs && (s.runs[id].status.Succeeded? || s.runs[id].status.Undoing? || s.runs[id].status.Undone?)
                     ==> s.Landed(ForRun(id)))
  }

  ghost predicate RunsSound(s: State) { HeardSound(s) && StatusSound(s) }

  ghost predicate UndoHeardSound(s: State) {
    && (forall id :: id in s.undoHolders ==> s.Landed(ForRun(id)))
    && (forall id :: id in s.runs && s.Landed(ForUndo(id)) ==> id in s.undoHolders)
    && (forall id :: id in s.undoHeard ==> s.Landed(ForUndo(id)))
  }

  ghost predicate UndoneSound(s: State) {
    forall id :: id in s.runs && s.runs[id].status.Undone? ==> s.Landed(ForUndo(id))
  }

  ghost predicate UndosSound(s: State) { UndoHeardSound(s) && UndoneSound(s) }

  ghost predicate SchedulesSound(s: State) {
    && (forall a, due :: (a, due) in s.confirmed ==>
                           HasRow(s, a, due))
    && (forall a, revision, due :: (a, revision, due) in s.moved ==>
                                     && (a, due) in s.confirmed && a in s.items && revision <= s.items[a].revision
                                     && (revision == s.items[a].revision ==> s.items[a].nextRunAt.Some? && s.items[a].nextRunAt.value > due))
  }

  // No window of an hour less the delay holds more counted runs than the limit.
  ghost predicate RateKept(s: State, limit: int, delay: nat) {
    && (forall id :: id in s.runs ==> s.runs[id].startedAt <= s.clock)
    && forall w, from, to :: to <= from + HOUR - delay ==> |Counted(s, w, from, to)| <= limit
  }

  lemma KeepsRowsUnique(s: State, step: Step, limit: int, delay: nat)
    requires RowsUnique(s) && Enabled(s, step, limit, delay)
    ensures RowsUnique(After(s, step))
  {
    hide Enabled, After;
    KeepsRows(s, step, limit, delay);
    RowsFrom(s, step);
    if step.Insert? { InsertIsNew(s, step, limit, delay); }
  }

  lemma InsertIsNew(s: State, step: Step, limit: int, delay: nat)
    requires Enabled(s, step, limit, delay) && step.Insert?
    ensures step.id !in s.runs && step.id in After(s, step).runs && After(s, step).runs[step.id] == step.run
    ensures forall other :: other in s.runs ==> !Clashes(step.run, s.runs[other])
  {
    hide Counted, HasRow, Clashes;
  }

  // The steps by what they touch: the store, the status of a row, or neither.
  predicate ChangesBook(step: Step) { step.LandRun? || step.LandUndo? || step.Edit? }

  predicate ChangesStatus(step: Step) {
    step.Succeed? || step.Fail? || step.ClaimUndo? || step.ResetUndo? || step.CompleteUndo?
  }

  lemma KeepsLog(s: State, step: Step, limit: int, delay: nat)
    requires LogSound(s) && Enabled(s, step, limit, delay)
    ensures LogSound(After(s, step))
  {
    hide Clashes, Counted, HasRow;
    if ChangesBook(step) {
      BookStepKeepsLog(s, step, limit, delay);
    } else {
      OtherStepKeepsLog(s, step, limit, delay);
    }
  }

  lemma BookStepKeepsLog(s: State, step: Step, limit: int, delay: nat)
    requires LogSound(s) && Enabled(s, step, limit, delay) && ChangesBook(step)
    ensures LogSound(After(s, step))
  {
    hide MayInsert, HasRow;
  }

  lemma OtherStepKeepsLog(s: State, step: Step, limit: int, delay: nat)
    requires LogSound(s) && Enabled(s, step, limit, delay) && !ChangesBook(step)
    ensures LogSound(After(s, step))
  {
    hide Enabled, After, NoRepeats;
    KeepsRows(s, step, limit, delay);
    BooksSame(s, step);
  }

  lemma BooksSame(s: State, step: Step)
    requires !ChangesBook(step)
    ensures After(s, step).books == s.books
  {
  }

  lemma KeepsHands(s: State, step: Step, limit: int, delay: nat)
    requires HandsSound(s) && Enabled(s, step, limit, delay)
    ensures HandsSound(After(s, step))
  {
    hide Enabled, After, State.BookOf;
    KeepsRows(s, step, limit, delay);
    KeepsHandSets(s, step, limit, delay);
    KeepsBases(s, step, limit, delay);
  }

  lemma KeepsHandSets(s: State, step: Step, limit: int, delay: nat)
    requires HandsSound(s) && Enabled(s, step, limit, delay)
    ensures var t := After(s, step);
            && t.holders <= t.runs.Keys && t.undoHolders <= t.runs.Keys && t.heard <= t.runs.Keys
            && t.undoHeard <= t.runs.Keys && t.conflicted <= t.runs.Keys
  {
    hide Enabled, After, State.Landed, State.BookOf;
    KeepsRows(s, step, limit, delay);
    HandsMove(s, step, limit, delay);
  }

  // What a step puts into callers' hands, and what it was allowed on.
  ghost predicate HandsFollow(s: State, step: Step, t: State) {
    && s.holders <= t.holders && s.undoHolders <= t.undoHolders
    && (forall id :: id in t.holders && id !in s.holders ==> id in t.runs)
    && (forall id :: id in t.heard && id !in s.heard ==> id in s.runs && (s.Landed(ForRun(id)) || Lands(step, ForRun(id))))
    && (forall id :: id in t.conflicted && id !in s.conflicted ==>
                       id in s.runs && !s.Landed(ForRun(id)) && s.BookOf(s.runs[id].workbook).version != s.runs[id].base)
  }

  ghost predicate UndoHandsFollow(s: State, step: Step, t: State) {
    && (forall id :: id in t.undoHolders && id !in s.undoHolders ==>
                       id in s.runs && (s.runs[id].status.Succeeded? || s.runs[id].status.Undoing?))
    && (forall id :: id in t.undoHeard && id !in s.undoHeard ==> id in s.runs && (s.Landed(ForUndo(id)) || Lands(step, ForUndo(id))))
  }

  lemma HandsMove(s: State, step: Step, limit: int, delay: nat)
    requires Enabled(s, step, limit, delay)
    ensures HandsFollow(s, step, After(s, step)) && UndoHandsFollow(s, step, After(s, step))
  {
    hide State.BookOf, MayInsert, HasRow, HandsFollow, UndoHandsFollow;
    RunHandsMove(s, step, limit, delay);
    UndoHandsMove(s, step, limit, delay);
  }

  lemma RunHandsMove(s: State, step: Step, limit: int, delay: nat)
    requires Enabled(s, step, limit, delay)
    ensures HandsFollow(s, step, After(s, step))
  {
    hide State.BookOf, MayInsert, HasRow;
  }

  lemma UndoHandsMove(s: State, step: Step, limit: int, delay: nat)
    requires Enabled(s, step, limit, delay)
    ensures UndoHandsFollow(s, step, After(s, step))
  {
    hide State.BookOf, MayInsert, HasRow;
  }

  // Only what is in hand lands, and a run only at its version.
  lemma LandsInHand(s: State, step: Step, limit: int, delay: nat, id: Id)
    requires Enabled(s, step, limit, delay)
    ensures Lands(step, ForRun(id)) ==> id in s.holders && id in s.runs && s.BookOf(s.runs[id].workbook).version == s.runs[id].base
    ensures Lands(step, ForUndo(id)) ==> id in s.undoHolders
  {
    hide State.BookOf, MayInsert, HasRow;
  }

  lemma KeepsBases(s: State, step: Step, limit: int, delay: nat)
    requires HandsSound(s) && Enabled(s, step, limit, delay)
    ensures var t := After(s, step); forall id :: id in t.runs ==> t.runs[id].base <= t.BookOf(t.runs[id].workbook).version
  {
    hide Enabled, After, State.BookOf;
    KeepsRows(s, step, limit, delay);
    RowsFrom(s, step);
    InsertBase(s, step, limit, delay);
    forall w ensures After(s, step).BookOf(w).version >= s.BookOf(w).version {
      VersionsGrow(s, step, w);
    }
  }

  lemma InsertBase(s: State, step: Step, limit: int, delay: nat)
    requires Enabled(s, step, limit, delay)
    ensures step.Insert? ==> var t := After(s, step); step.id in t.runs && t.runs[step.id].base <= s.BookOf(t.runs[step.id].workbook).version
  {
    hide Clashes, Counted, HasRow;
  }

  lemma VersionsGrow(s: State, step: Step, w: Id)
    ensures After(s, step).BookOf(w).version >= s.BookOf(w).version
  {
  }

  // Rows are never removed, and only their status and undo key ever change.
  ghost predicate RowsStay(s: State, t: State) {
    forall id :: id in s.runs ==>
                   id in t.runs && t.runs[id] == s.runs[id].(status := t.runs[id].status, undoKey := t.runs[id].undoKey)
  }

  lemma KeepsRows(s: State, step: Step, limit: int, delay: nat)
    requires Enabled(s, step, limit, delay)
    ensures RowsStay(s, After(s, step))
  {
  }

  predicate Lands(step: Step, k: StoreKey) { (step.LandRun? && k == ForRun(step.id)) || (step.LandUndo? && k == ForUndo(step.id)) }

  // What a step does to the store, seen through the rows.
  ghost predicate StoreGrows(s: State, step: Step, t: State) {
    && (forall k: StoreKey :: k.run in s.runs ==> (t.Landed(k) <==> s.Landed(k) || Lands(step, k)))
    && (forall id :: id in s.runs ==> t.BookOf(s.runs[id].workbook).version >= s.BookOf(s.runs[id].workbook).version)
    && (step.Insert? ==> !t.Landed(ForRun(step.id)) && !t.Landed(ForUndo(step.id)))
  }

  lemma KeepsStore(s: State, step: Step, limit: int, delay: nat)
    requires LedgerSound(s) && Enabled(s, step, limit, delay)
    ensures StoreGrows(s, step, After(s, step))
  {
    if step.LandRun? || step.LandUndo? {
      LandingKeepsStore(s, step, limit, delay);
    } else {
      OthersKeepStore(s, step, limit, delay);
    }
  }

  lemma LandingKeepsStore(s: State, step: Step, limit: int, delay: nat)
    requires Enabled(s, step, limit, delay) && (step.LandRun? || step.LandUndo?)
    ensures StoreGrows(s, step, After(s, step))
  {
    hide Clashes, Counted, HasRow, MayInsert;
  }

  lemma LogsSame(s: State, step: Step, w: Id, limit: int, delay: nat)
    requires Enabled(s, step, limit, delay) && !step.LandRun? && !step.LandUndo?
    ensures After(s, step).BookOf(w).landed == s.BookOf(w).landed
    ensures After(s, step).BookOf(w).version >= s.BookOf(w).version
    ensures step.Insert? ==> step.id !in s.runs
  {
    hide Clashes, Counted, HasRow;
  }

  lemma OthersKeepStore(s: State, step: Step, limit: int, delay: nat)
    requires LogSound(s) && Enabled(s, step, limit, delay) && !step.LandRun? && !step.LandUndo?
    ensures StoreGrows(s, step, After(s, step))
  {
    hide Enabled, After, NoRepeats;
    KeepsRows(s, step, limit, delay);
    forall w ensures After(s, step).BookOf(w).landed == s.BookOf(w).landed && After(s, step).BookOf(w).version >= s.BookOf(w).version {
      LogsSame(s, step, w, limit, delay);
    }
    LogsSame(s, step, 0, limit, delay);
  }

  lemma KeepsHeard(s: State, step: Step, limit: int, delay: nat)
    requires LedgerSound(s) && RunsSound(s) && UndosSound(s) && Enabled(s, step, limit, delay)
    ensures HeardSound(After(s, step))
  {
    hide Enabled, After, State.Landed, State.BookOf, UndosSound, LogSound, StatusSound;
    KeepsStore(s, step, limit, delay);
    KeepsRows(s, step, limit, delay);
    HandsMove(s, step, limit, delay);
    RowsFrom(s, step);
    forall id ensures Lands(step, ForRun(id)) ==> id in s.holders && id in s.runs && s.BookOf(s.runs[id].workbook).version == s.runs[id].base {
      LandsInHand(s, step, limit, delay, id);
    }
  }

  lemma RowsFrom(s: State, step: Step)
    ensures forall id :: id in After(s, step).runs ==> id in s.runs || (step.Insert? && id == step.id)
  {
  }

  lemma KeepsStatus(s: State, step: Step, limit: int, delay: nat)
    requires LedgerSound(s) && RunsSound(s) && UndosSound(s) && Enabled(s, step, limit, delay)
    ensures StatusSound(After(s, step))
  {
    hide Enabled, After, StatusSound, HeardSound, LedgerSound, UndosSound;
    if ChangesStatus(step) {
      StatusStepKeepsStatus(s, step, limit, delay);
    } else {
      OtherStepKeepsStatus(s, step, limit, delay);
    }
  }

  lemma StatusStepKeepsStatus(s: State, step: Step, limit: int, delay: nat)
    requires LedgerSound(s) && RunsSound(s) && UndosSound(s) && Enabled(s, step, limit, delay) && ChangesStatus(step)
    ensures StatusSound(After(s, step))
  {
    hide Enabled, After, State.Landed, State.BookOf, UndosSound, LedgerSound;
    KeepsStore(s, step, limit, delay);
    StatusMoves(s, step, limit, delay);
  }

  // A step that changes a status changes that of one row, and to one the store
  // agrees with.
  lemma StatusMoves(s: State, step: Step, limit: int, delay: nat)
    requires RunsSound(s) && Enabled(s, step, limit, delay) && ChangesStatus(step)
    ensures var t := After(s, step);
            && t.runs.Keys == s.runs.Keys && step.id in s.runs && t.holders == s.holders && t.conflicted == s.conflicted
            && (forall id :: id in s.runs && id != step.id ==> t.runs[id] == s.runs[id])
            && (t.runs[step.id].status == Failed(true) ==> step.id in s.conflicted)
            && !t.runs[step.id].status.Skipped?
            && (t.runs[step.id].status.Failed? || s.Landed(ForRun(step.id)))
  {
    hide State.Landed, State.BookOf, MayInsert, HasRow;
  }

  lemma OtherStepKeepsStatus(s: State, step: Step, limit: int, delay: nat)
    requires LedgerSound(s) && RunsSound(s) && UndosSound(s) && Enabled(s, step, limit, delay) && !ChangesStatus(step)
    ensures StatusSound(After(s, step))
  {
    hide State.Landed, State.BookOf, Clashes, Counted, UndosSound, LogSound, HeardSound, HasRow;
    KeepsStore(s, step, limit, delay);
  }

  lemma KeepsUndoHeard(s: State, step: Step, limit: int, delay: nat)
    requires LedgerSound(s) && RunsSound(s) && UndosSound(s) && Enabled(s, step, limit, delay)
    ensures UndoHeardSound(After(s, step))
  {
    hide Enabled, After, State.Landed, State.BookOf, HeardSound, LogSound, UndoneSound;
    KeepsStore(s, step, limit, delay);
    KeepsRows(s, step, limit, delay);
    HandsMove(s, step, limit, delay);
    RowsFrom(s, step);
    forall id ensures Lands(step, ForUndo(id)) ==> id in s.undoHolders {
      LandsInHand(s, step, limit, delay, id);
    }
  }

  lemma KeepsUndone(s: State, step: Step, limit: int, delay: nat)
    requires LedgerSound(s) && RunsSound(s) && UndosSound(s) && Enabled(s, step, limit, delay)
    ensures UndoneSound(After(s, step))
  {
    hide State.Landed, State.BookOf, Clashes, Counted, HeardSound, StatusSound, LogSound, HasRow;
    KeepsStore(s, step, limit, delay);
    KeepsRows(s, step, limit, delay);
  }

  predicate HasRow(s: State, a: Id, due: int) {
    exists id :: id in s.runs && s.runs[id].automation == a && s.runs[id].scheduledFor == Some(due)
  }

  lemma KeepsHasRow(s: State, t: State, a: Id, due: int)
    requires RowsStay(s, t) && HasRow(s, a, due)
    ensures HasRow(t, a, due)
  {
    var id :| id in s.runs && s.runs[id].automation == a && s.runs[id].scheduledFor == Some(due);
    assert id in t.runs && t.runs[id].automation == a && t.runs[id].scheduledFor == Some(due);
  }

  lemma KeepsSchedules(s: State, step: Step, limit: int, delay: nat)
    requires SchedulesSound(s) && Enabled(s, step, limit, delay)
    ensures SchedulesSound(After(s, step))
  {
    hide HasRow, Clashes, Counted;
    var t := After(s, step);
    KeepsRows(s, step, limit, delay);
    forall a, due | (a, due) in t.confirmed
      ensures HasRow(t, a, due)
    {
      KeepsHasRow(s, t, a, due);
    }
  }

  lemma SubsetSize<T>(a: set<T>, b: set<T>)
    requires a <= b
    ensures |a| <= |b|
  {
    if a != {} {
      var x :| x in a;
      SubsetSize(a - {x}, b - {x});
    }
  }

  lemma SameCount(s: State, t: State, w: Id, from: int, to: int)
    requires RowsStay(s, t) && s.runs.Keys == t.runs.Keys
    ensures Counted(t, w, from, to) == Counted(s, w, from, to)
  {
  }

  lemma KeepsRate(s: State, step: Step, limit: int, delay: nat)
    requires RateKept(s, limit, delay) && Enabled(s, step, limit, delay) && limit >= 0
    ensures RateKept(After(s, step), limit, delay)
  {
    if step.Insert? {
      InsertKeepsRate(s, step, limit, delay);
    } else {
      OthersKeepRate(s, step, limit, delay);
    }
  }

  lemma OthersKeepRate(s: State, step: Step, limit: int, delay: nat)
    requires RateKept(s, limit, delay) && Enabled(s, step, limit, delay) && !step.Insert?
    ensures RateKept(After(s, step), limit, delay)
  {
    hide Counted;
    var t := After(s, step);
    KeepsRows(s, step, limit, delay);
    forall w, from, to | to <= from + HOUR - delay
      ensures |Counted(t, w, from, to)| <= limit
    {
      SameCount(s, t, w, from, to);
    }
  }

  lemma InsertKeepsRate(s: State, step: Step, limit: int, delay: nat)
    requires RateKept(s, limit, delay) && Enabled(s, step, limit, delay) && limit >= 0 && step.Insert?
    ensures RateKept(After(s, step), limit, delay)
  {
    hide Clashes;
    var t := After(s, step);
    forall w, from, to | to <= from + HOUR - delay
      ensures |Counted(t, w, from, to)| <= limit
    {
      InsertCount(s, step, limit, delay, w, from, to);
      if step.id in Counted(t, w, from, to) {
        SubsetSize(Counted(s, w, from, to), Counted(s, w, s.clock - HOUR, s.clock));
      }
    }
  }

  lemma InsertCount(s: State, step: Step, limit: int, delay: nat, w: Id, from: int, to: int)
    requires Enabled(s, step, limit, delay) && step.Insert? && to <= from + HOUR - delay
    requires forall id :: id in s.runs ==> s.runs[id].startedAt <= s.clock
    ensures var before, after := Counted(s, w, from, to), Counted(After(s, step), w, from, to);
            && after == before + (if step.id in after then {step.id} else {})
            && (step.id in after ==> before <= Counted(s, w, s.clock - HOUR, s.clock) && |Counted(s, w, s.clock - HOUR, s.clock)| < limit)
  {
    hide Clashes;
  }

  // -------- over every run of the system --------

  ghost predicate Sound(s: State, limit: int, delay: nat) {
    RowsUnique(s) && LedgerSound(s) && RunsSound(s) && UndosSound(s) && SchedulesSound(s) && RateKept(s, limit, delay)
  }

  lemma InitialSound(s: State, limit: int, delay: nat)
    requires Initial(s) && limit >= 0
    ensures Sound(s, limit, delay)
  {
    forall w, from, to ensures Counted(s, w, from, to) == {} {}
  }

  lemma StepKeepsSound(s: State, step: Step, limit: int, delay: nat)
    requires Sound(s, limit, delay) && Enabled(s, step, limit, delay) && limit >= 0
    ensures Sound(After(s, step), limit, delay)
  {
    hide RowsUnique, LogSound, HandsSound, HeardSound, StatusSound, UndoHeardSound, UndoneSound, SchedulesSound, RateKept, After, Enabled;
    KeepsRowsUnique(s, step, limit, delay);
    KeepsLog(s, step, limit, delay);
    KeepsHands(s, step, limit, delay);
    KeepsHeard(s, step, limit, delay);
    KeepsStatus(s, step, limit, delay);
    KeepsUndoHeard(s, step, limit, delay);
    KeepsUndone(s, step, limit, delay);
    KeepsSchedules(s, step, limit, delay);
    KeepsRate(s, step, limit, delay);
  }

  lemma {:induction false} PathKeepsSound(s: State, steps: seq<Step>, t: State, limit: int, delay: nat)
    requires Sound(s, limit, delay) && Path(s, steps, t, limit, delay) && limit >= 0
    ensures Sound(t, limit, delay)
    decreases |steps|
  {
    hide Sound, After, Enabled;
    if steps != [] {
      StepKeepsSound(s, steps[0], limit, delay);
      PathKeepsSound(After(s, steps[0]), steps[1..], t, limit, delay);
    }
  }

  lemma Reached(start: State, steps: seq<Step>, s: State, limit: int, delay: nat)
    requires Initial(start) && Path(start, steps, s, limit, delay) && limit >= 0
    ensures Sound(s, limit, delay)
  {
    hide Path, Sound, Initial;
    InitialSound(start, limit, delay);
    PathKeepsSound(start, steps, s, limit, delay);
  }

  // A run's mutation, and its undo, land at most once in all workbooks together,
  // however often they are retried.
  lemma LandsAtMostOnce(start: State, steps: seq<Step>, s: State, limit: int, delay: nat, w: Id, i: nat, w': Id, i': nat)
    requires Initial(start) && Path(start, steps, s, limit, delay) && limit >= 0
    requires w in s.books && w' in s.books && i < |s.books[w].landed| && i' < |s.books[w'].landed|
    requires s.books[w].landed[i] == s.books[w'].landed[i']
    ensures w == w' && i == i'
  {
    hide Path, Initial, RowsUnique, HandsSound, HeardSound, StatusSound, UndosSound, SchedulesSound, RateKept;
    Reached(start, steps, s, limit, delay);
    assert s.books[w].landed[i] in s.books[w].landed && s.books[w'].landed[i'] in s.books[w'].landed;
  }

  // What a status says about the store.
  lemma StatusMeans(start: State, steps: seq<Step>, s: State, limit: int, delay: nat, id: Id)
    requires Initial(start) && Path(start, steps, s, limit, delay) && limit >= 0 && id in s.runs
    ensures s.runs[id].status.Succeeded? || s.runs[id].status.Undoing? || s.runs[id].status.Undone? ==> s.Landed(ForRun(id))
    ensures s.runs[id].status.Skipped? || s.runs[id].status == Failed(true) ==> !s.Landed(ForRun(id))
    ensures s.runs[id].status.Undone? ==> s.Landed(ForUndo(id))
    ensures s.Landed(ForUndo(id)) ==> s.Landed(ForRun(id))
  {
    hide Path, Initial, RowsUnique, LogSound, SchedulesSound, RateKept;
    Reached(start, steps, s, limit, delay);
  }

  lemma {:induction false} HandsGrow(s: State, steps: seq<Step>, t: State, limit: int, delay: nat)
    requires Sound(s, limit, delay) && Path(s, steps, t, limit, delay) && limit >= 0
    ensures s.conflicted <= t.conflicted && RowsStay(s, t)
    ensures forall id :: id in s.runs ==> t.BookOf(s.runs[id].workbook).version >= s.BookOf(s.runs[id].workbook).version
    decreases |steps|
  {
    hide Enabled, After, Sound, State.BookOf;
    if steps != [] {
      var next := After(s, steps[0]);
      StepKeepsSound(s, steps[0], limit, delay);
      StepFacts(s, steps[0], limit, delay);
      HandsGrow(next, steps[1..], t, limit, delay);
    }
  }

  // One run for good: whatever happens after a run was written, any run there
  // ever is for its caller's key, its trigger operation or its due slot is that
  // run.
  lemma OneRowEver(start: State, steps: seq<Step>, s: State, more: seq<Step>, t: State, limit: int, delay: nat, a: Id, b: Id)
    requires Initial(start) && Path(start, steps, s, limit, delay) && Path(s, more, t, limit, delay) && limit >= 0
    requires a in s.runs && b in t.runs && s.runs[a].automation == t.runs[b].automation
    requires || (s.runs[a].actor == t.runs[b].actor && s.runs[a].key == t.runs[b].key)
             || (s.runs[a].operation.Some? && s.runs[a].operation == t.runs[b].operation)
             || (s.runs[a].scheduledFor.Some? && s.runs[a].scheduledFor == t.runs[b].scheduledFor)
    ensures a == b
  {
    hide Path, Initial, LedgerSound, RunsSound, UndosSound, SchedulesSound, RateKept;
    Reached(start, steps, s, limit, delay);
    HandsGrow(s, more, t, limit, delay);
    PathKeepsSound(s, more, t, limit, delay);
    assert Clashes(t.runs[a], t.runs[b]);
  }

  lemma StepFacts(s: State, step: Step, limit: int, delay: nat)
    requires Sound(s, limit, delay) && Enabled(s, step, limit, delay)
    ensures s.conflicted <= After(s, step).conflicted && RowsStay(s, After(s, step))
    ensures StoreGrows(s, step, After(s, step))
  {
    hide Enabled, After, StoreGrows, RowsStay, LogSound, HandsSound, RunsSound, UndosSound, SchedulesSound, RateKept, RowsUnique;
    KeepsRows(s, step, limit, delay);
    KeepsStore(s, step, limit, delay);
    ConflictsGrow(s, step);
  }

  lemma ConflictsGrow(s: State, step: Step)
    ensures s.conflicted <= After(s, step).conflicted
  {
  }

  // A run failed for a version conflict never lands later: the key is not in
  // the store and versions only grow.
  lemma ConflictNeverLands(start: State, steps: seq<Step>, s: State, more: seq<Step>, t: State, limit: int, delay: nat, id: Id)
    requires Initial(start) && Path(start, steps, s, limit, delay) && Path(s, more, t, limit, delay) && limit >= 0
    requires id in s.runs && s.runs[id].status == Failed(true)
    ensures !t.Landed(ForRun(id))
  {
    hide Path, Initial, RowsUnique, LogSound, UndosSound, SchedulesSound, RateKept, HandsSound;
    Reached(start, steps, s, limit, delay);
    HandsGrow(s, more, t, limit, delay);
    PathKeepsSound(s, more, t, limit, delay);
  }

  // For any run not yet landed that a caller may still be executing, whatever
  // its status: it can land later if and only if the workbook is still at the
  // version the run was prepared for.
  lemma CanStillLand(start: State, steps: seq<Step>, s: State, limit: int, delay: nat, id: Id)
    requires Initial(start) && Path(start, steps, s, limit, delay) && limit >= 0
    requires id in s.holders && id in s.runs && !s.Landed(ForRun(id))
    ensures (exists more, t :: Path(s, more, t, limit, delay) && t.Landed(ForRun(id)))
       <==> s.BookOf(s.runs[id].workbook).version == s.runs[id].base
  {
    Reached(start, steps, s, limit, delay);
    if s.BookOf(s.runs[id].workbook).version == s.runs[id].base {
      LandNow(s, limit, delay, id);
    } else {
      forall more, t | Path(s, more, t, limit, delay)
        ensures !t.Landed(ForRun(id))
      {
        PassedStaysOut(s, more, t, limit, delay, id);
      }
    }
  }

  lemma LandNow(s: State, limit: int, delay: nat, id: Id)
    requires id in s.holders && id in s.runs && !s.Landed(ForRun(id)) && s.BookOf(s.runs[id].workbook).version == s.runs[id].base
    ensures exists more, t :: Path(s, more, t, limit, delay) && t.Landed(ForRun(id))
  {
    var step := LandRun(id, true);
    var t := After(s, step);
    assert Path(t, [], t, limit, delay);
    assert [step][1..] == [];
    assert Path(s, [step], t, limit, delay);
    assert t.BookOf(s.runs[id].workbook).landed[|s.BookOf(s.runs[id].workbook).landed|] == ForRun(id);
  }

  lemma {:induction false} PassedStaysOut(s: State, steps: seq<Step>, t: State, limit: int, delay: nat, id: Id)
    requires Sound(s, limit, delay) && Path(s, steps, t, limit, delay) && limit >= 0
    requires id in s.runs && !s.Landed(ForRun(id)) && s.BookOf(s.runs[id].workbook).version != s.runs[id].base
    ensures !t.Landed(ForRun(id))
    decreases |steps|
  {
    if steps != [] {
      PassedStep(s, steps[0], limit, delay, id);
      StepKeepsSound(s, steps[0], limit, delay);
      PassedStaysOut(After(s, steps[0]), steps[1..], t, limit, delay, id);
    }
  }

  lemma PassedStep(s: State, step: Step, limit: int, delay: nat, id: Id)
    requires Sound(s, limit, delay) && Enabled(s, step, limit, delay)
    requires id in s.runs && !s.Landed(ForRun(id)) && s.BookOf(s.runs[id].workbook).version != s.runs[id].base
    ensures var t := After(s, step);
            id in t.runs && !t.Landed(ForRun(id)) && t.BookOf(t.runs[id].workbook).version != t.runs[id].base
  {
    hide MayInsert, HasRow, RowsUnique, UndosSound, SchedulesSound, RateKept, RunsSound, NoRepeats;
    StepFacts(s, step, limit, delay);
  }

  // So another terminal error is not final: a second caller that picked the run
  // up before it was marked failed can still land it.
  lemma RefusedRunCanLand(start: State, run: Run, limit: int, delay: nat)
    requires Initial(start) && limit > 0 && run.startedAt == start.clock && run.status.Running? && !run.key.Scheduled?
    requires run.base == start.BookOf(run.workbook).version
    ensures exists steps, s :: Path(start, steps, s, limit, delay) && 0 in s.runs && s.runs[0].status == Failed(false) && s.Landed(ForRun(0))
  {
    hide Enabled, After, Path, State.Landed, State.BookOf, Initial;
    var a, b, c, d, e := Insert(0, run, limit, None), Pick(0), Refuse(0), Fail(0, false), LandRun(0, false);
    var s1 := After(start, a);
    var s2 := After(s1, b);
    var s3 := After(s2, c);
    var s4 := After(s3, d);
    var s5 := After(s4, e);
    OnlyRunAllowed(start, run, limit, delay);
    OnlyRunRefused(start, run, limit, delay);
    PathEnds(s5, limit, delay);
    PathStarts(s4, e, [], s5, limit, delay);
    PathStarts(s3, d, [e] + [], s5, limit, delay);
    PathStarts(s2, c, [d] + ([e] + []), s5, limit, delay);
    PathStarts(s1, b, [c] + ([d] + ([e] + [])), s5, limit, delay);
    PathStarts(start, a, [b] + ([c] + ([d] + ([e] + []))), s5, limit, delay);
  }

  // The table with one run in it, which a second caller has picked up.
  function OnlyRun(start: State, run: Run, limit: int): State {
    After(After(start, Insert(0, run, limit, None)), Pick(0))
  }

  lemma OnlyRunAllowed(start: State, run: Run, limit: int, delay: nat)
    requires Initial(start) && limit > 0 && run.startedAt == start.clock && run.status.Running? && !run.key.Scheduled?
    requires run.base == start.BookOf(run.workbook).version
    ensures Enabled(start, Insert(0, run, limit, None), limit, delay)
    ensures Enabled(After(start, Insert(0, run, limit, None)), Pick(0), limit, delay)
  {
    assert Counted(start, run.workbook, start.clock - HOUR, start.clock) == {};
  }

  lemma OnlyRunRefused(start: State, run: Run, limit: int, delay: nat)
    requires Initial(start) && run.status.Running? && run.base == start.BookOf(run.workbook).version
    ensures var s2 := OnlyRun(start, run, limit);
            var s3 := After(s2, Refuse(0));
            var s4 := After(s3, Fail(0, false));
            var s5 := After(s4, LandRun(0, false));
            && Enabled(s2, Refuse(0), limit, delay) && Enabled(s3, Fail(0, false), limit, delay)
            && Enabled(s4, LandRun(0, false), limit, delay)
            && 0 in s5.runs && s5.runs[0].status == Failed(false) && s5.Landed(ForRun(0))
  {
    hide MayInsert, HasRow, Counted;
    var s4 := After(After(OnlyRun(start, run, limit), Refuse(0)), Fail(0, false));
    assert s4.BookOf(run.workbook).landed == [];
    assert (s4.BookOf(run.workbook).landed + [ForRun(0)])[0] == ForRun(0);
  }

  lemma PathEnds(s: State, limit: int, delay: nat)
    ensures Path(s, [], s, limit, delay)
  {
  }

  lemma PathStarts(s: State, step: Step, rest: seq<Step>, t: State, limit: int, delay: nat)
    requires Enabled(s, step, limit, delay) && Path(After(s, step), rest, t, limit, delay)
    ensures Path(s, [step] + rest, t, limit, delay)
  {
    assert ([step] + rest)[1..] == rest;
  }

  // -------- schedules --------

  // An advance leaves a due time only when a run row for exactly that time
  // exists; it moves strictly past the due time and the scheduler's clock; and
  // no other advance at this revision has left the same time before.
  lemma AdvanceIsSafe(start: State, steps: seq<Step>, s: State, limit: int, delay: nat, a: Id, revision: int, due: int, now: int, next: int)
    requires Initial(start) && Path(start, steps, s, limit, delay) && limit >= 0
    requires Enabled(s, Advance(a, revision, due, now, next), limit, delay)
    ensures HasRow(s, a, due) && next > due && next > now
    ensures (a, revision, due) !in s.moved
  {
    hide Path, Initial, RowsUnique, LogSound, HandsSound, RunsSound, UndosSound, RateKept, HasRow;
    Reached(start, steps, s, limit, delay);
  }

  // A due slot is never dropped: along any continuation in which the definition
  // was not edited, the slot is still due or has its run row.
  lemma DueSlotIsKept(start: State, steps: seq<Step>, s: State, more: seq<Step>, t: State, limit: int, delay: nat, a: Id, due: int)
    requires Initial(start) && Path(start, steps, s, limit, delay) && Path(s, more, t, limit, delay) && limit >= 0
    requires a in s.items && s.items[a].nextRunAt == Some(due)
    requires a in t.items && t.items[a].revision == s.items[a].revision
    ensures t.items[a].nextRunAt == Some(due) || HasRow(t, a, due)
  {
    hide Path, Initial, RowsUnique, LogSound, HandsSound, RunsSound, UndosSound, RateKept, HasRow;
    Reached(start, steps, s, limit, delay);
    PathKeepsSound(s, more, t, limit, delay);
    SlotFollows(s, more, t, limit, delay, a, s.items[a].revision, due);
  }

  ghost predicate SlotKnown(s: State, a: Id, revision: int, due: int) {
    a in s.items && (s.items[a].revision > revision
                     || (s.items[a].revision == revision && (s.items[a].nextRunAt == Some(due) || (a, revision, due) in s.moved)))
  }

  lemma {:induction false} SlotFollows(s: State, steps: seq<Step>, t: State, limit: int, delay: nat, a: Id, revision: int, due: int)
    requires Path(s, steps, t, limit, delay) && SlotKnown(s, a, revision, due)
    ensures SlotKnown(t, a, revision, due)
    decreases |steps|
  {
    if steps != [] {
      SlotStep(s, steps[0], limit, delay, a, revision, due);
      SlotFollows(After(s, steps[0]), steps[1..], t, limit, delay, a, revision, due);
    }
  }

  lemma SlotStep(s: State, step: Step, limit: int, delay: nat, a: Id, revision: int, due: int)
    requires Enabled(s, step, limit, delay) && SlotKnown(s, a, revision, due)
    ensures SlotKnown(After(s, step), a, revision, due)
  {
    hide MayInsert, HasRow;
  }

  // -------- rate limit --------

  // With the clock read at insertion, no hour of a workbook ever holds more
  // counted runs than the limit.
  lemma HourlyLimitHolds(start: State, steps: seq<Step>, s: State, limit: int, w: Id, from: int)
    requires Initial(start) && Path(start, steps, s, limit, 0) && limit >= 0
    ensures |Counted(s, w, from, from + HOUR)| <= limit
  {
    hide Path, Initial, RowsUnique, LedgerSound, RunsSound, UndosSound, SchedulesSound, Counted;
    Reached(start, steps, s, limit, 0);
  }

  // When the clock may be read earlier, the window that stays within the limit
  // is an hour less that delay ...
  lemma DelayedLimitHolds(start: State, steps: seq<Step>, s: State, limit: int, delay: nat, w: Id, from: int)
    requires Initial(start) && Path(start, steps, s, limit, delay) && limit >= 0
    ensures |Counted(s, w, from, from + HOUR - delay)| <= limit
  {
    hide Path, Initial, RowsUnique, LedgerSound, RunsSound, UndosSound, SchedulesSound, Counted;
    Reached(start, steps, s, limit, delay);
  }

  // ... and any longer one can overflow it: two runs an hour less the delay and
  // one second apart, under a limit of one.
  lemma DelayedLimitIsTight(start: State, delay: nat, a: Run, b: Run)
    requires Initial(start) && 0 < delay <= HOUR && !Clashes(a, b) && !Clashes(b, a)
    requires a.workbook == b.workbook && a.counted && b.counted && a.status.Skipped? && b.status.Skipped?
    requires !a.key.Scheduled? && !b.key.Scheduled?
    requires a.base <= start.BookOf(a.workbook).version && b.base <= start.BookOf(a.workbook).version
    requires a.startedAt == start.clock && b.startedAt == start.clock + HOUR - delay + 1
    ensures exists steps, s :: Path(start, steps, s, 1, delay) && |Counted(s, a.workbook, start.clock, start.clock + HOUR - delay + 1)| == 2
  {
    hide Enabled, After, Path, Counted, Clashes, State.BookOf;
    var w, t0 := a.workbook, start.clock;
    var p, q, r := Insert(0, a, 1, None), Tick(t0 + HOUR + 1), Insert(1, b, 1, None);
    var s2 := After(After(start, p), q);
    var s3 := After(s2, r);
    BothCounted(start, delay, a, b);
    FirstInsertAllowed(start, delay, a);
    SecondInsertAllowed(start, delay, a, b);
    PathEnds(s3, 1, delay);
    PathStarts(s2, r, [], s3, 1, delay);
    PathStarts(After(start, p), q, [r] + [], s3, 1, delay);
    PathStarts(start, p, [q] + ([r] + []), s3, 1, delay);
  }

  lemma BothCounted(start: State, delay: nat, a: Run, b: Run)
    requires start.runs == map[] && delay <= HOUR && a.workbook == b.workbook && a.counted && b.counted
    requires a.startedAt == start.clock && b.startedAt == start.clock + HOUR - delay + 1
    ensures var s3 := After(After(After(start, Insert(0, a, 1, None)), Tick(start.clock + HOUR + 1)), Insert(1, b, 1, None));
            Counted(s3, a.workbook, start.clock, start.clock + HOUR - delay + 1) == {0, 1}
  {
  }

  lemma FirstInsertAllowed(start: State, delay: nat, a: Run)
    requires Initial(start) && a.status.Skipped? && !a.key.Scheduled?
    requires a.base <= start.BookOf(a.workbook).version && a.startedAt == start.clock
    ensures Enabled(start, Insert(0, a, 1, None), 1, delay)
    ensures Enabled(After(start, Insert(0, a, 1, None)), Tick(start.clock + HOUR + 1), 1, delay)
  {
    assert Counted(start, a.workbook, start.clock - HOUR, start.clock) == {};
  }

  lemma SecondInsertAllowed(start: State, delay: nat, a: Run, b: Run)
    requires Initial(start) && 0 < delay <= HOUR && !Clashes(b, a) && a.workbook == b.workbook
    requires b.status.Skipped? && !b.key.Scheduled? && b.base <= start.BookOf(a.workbook).version
    requires a.startedAt == start.clock && b.startedAt == start.clock + HOUR - delay + 1
    ensures Enabled(After(After(start, Insert(0, a, 1, None)), Tick(start.clock + HOUR + 1)), Insert(1, b, 1, None), 1, delay)
  {
    var s := After(After(start, Insert(0, a, 1, None)), Tick(start.clock + HOUR + 1));
    assert Counted(s, a.workbook, start.clock + 1, start.clock + HOUR + 1) == {};
  }
}
