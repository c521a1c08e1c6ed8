/**
  The automation service's own methods over the run table: each is a sequence of
  guarded statements, and each is shown to be a path of the step system, so what
  is proved there of every interleaving covers it.
*/
module AutomationService {
  import opened CellAddress
  import opened Automation

  // What the workbook store, or the way to it, does with one ApplyCells.
  datatype Answer =
    | Answered                        // the store decides and the answer arrives
    | Lost(committed: bool)           // a transient failure, before or after commit
    | Refused                         // a terminal error other than a version conflict

  // What goes wrong with one database statement: it fails without effect, or its
  // effect is there and the caller hears of a failure.
  datatype Fault = NoFault | LostBefore | LostAfter

  // What goes wrong while one due automation is served, its run apart: looking
  // the slot's row up, writing a failed row, advancing.
  datatype Faults = Faults(lookup: bool, record: Fault, advance: Fault)

  datatype Inserted = Created | Duplicate | UniqueViolation | NotAllowed

  datatype UndoResult = Undid | UndidBefore | NotOpen | UndoFailed

  // One automation the scheduler found due.
  datatype Due = Due(item: Id, workbook: Id, revision: int, due: int)

  lemma {:induction false} PathAppend(s: State, first: seq<Step>, m: State, second: seq<Step>, t: State, limit: int, delay: nat)
    requires Path(s, first, m, limit, delay) && Path(m, second, t, limit, delay)
    ensures Path(s, first + second, t, limit, delay)
    decreases |first|
  {
    hide Enabled, After;
    if first == [] {
      assert first + second == second;
    } else {
      assert (first + second)[1..] == first[1..] + second;
      PathAppend(After(s, first[0]), first[1..], m, second, t, limit, delay);
    }
  }

  class Service {
    var db: State
    var nextId: Id
    const limit: int
    ghost const start: State
    ghost var history: seq<Step>

    // The table has been reached from an empty one by enabled steps.
    ghost predicate Valid()
      reads this
    {
      && limit > 0 && Initial(start) && Path(start, history, db, limit, 0)
      && (forall id :: id in db.runs ==> id < nextId)
      && (forall id :: id in db.runs && db.runs[id].key.Scheduled? ==> db.runs[id].scheduledFor == Some(db.runs[id].key.due))
    }

    constructor (empty: State, hourlyLimit: int)
      requires Initial(empty) && hourlyLimit > 0
      ensures Valid() && db == empty && history == []
    {
      db, nextId, limit, start, history := empty, 0, hourlyLimit, empty, [];
    }

    // One guarded statement.
    method Do(step: Step)
      requires Valid() && Enabled(db, step, limit, 0)
      requires step.Insert? ==> step.id < nextId
      modifies `db, `history
      ensures Valid() && db == After(old(db), step) && history == old(history) + [step]
    {
      ghost var before := db;
      RowsFrom(db, step);
      KeepsRows(db, step, limit, 0);
      db := After(db, step);
      assert Path(before, [step], db, limit, 0) by {
        assert [step] + [] == [step];
        PathEnds(db, limit, 0);
        PathStarts(before, step, [], db, limit, 0);
      }
      PathAppend(start, history, before, [step], db, limit, 0);
      history := history + [step];
    }

    // insertRun: the row goes in when the automation is unchanged and enabled,
    // the hour has room and no unique index objects; otherwise nothing changes.
    method InsertRun(run: Run, hourly: bool, revision: Option<int>) returns (r: Inserted, id: Id)
      requires Valid()
      requires run.startedAt == db.clock && run.base <= db.BookOf(run.workbook).version
      requires run.status.Running? || run.status.Skipped? || run.status == Failed(false)
      requires run.counted ==> hourly
      requires run.key.Scheduled? ==> run.scheduledFor == Some(run.key.due)
      modifies this
      ensures Valid() && id == old(nextId)
      ensures r.Created? ==> db == After(old(db), Insert(id, run, if hourly then limit else 0, revision))
      ensures !r.Created? ==> db == old(db)
      ensures r.Created? <==> MayInsert(old(db), id, run, if hourly then limit else 0, revision, 0)
      ensures r.Duplicate? ==>
                exists other :: other in db.runs && db.runs[other].automation == run.automation
                                && db.runs[other].actor == run.actor && db.runs[other].key == run.key
      ensures r.UniqueViolation? ==> exists other :: other in db.runs && Clashes(run, db.runs[other])
    {
      id := nextId;
      nextId := nextId + 1;
      var l := if hourly then limit else 0;
      if revision.Some? {
        if run.automation !in db.items { return NotAllowed, id; }
        var item := db.items[run.automation];
        if item.deleted || !item.enabled || item.revision != revision.value { return NotAllowed, id; }
      }
      var duplicate := exists other :: other in db.runs && db.runs[other].automation == run.automation
                                       && db.runs[other].actor == run.actor && db.runs[other].key == run.key;
      if hourly && !duplicate {
        var count := |Counted(db, run.workbook, db.clock - HOUR, db.clock)|;
        if count >= limit { return NotAllowed, id; }
      }
      if duplicate { return Duplicate, id; }
      var clash := exists other :: other in db.runs && Clashes(run, db.runs[other]);
      if clash { return UniqueViolation, id; }
      Do(Insert(id, run, l, revision));
      r := Created;
    }

    // markRunFailed: only a running row changes.
    method MarkRunFailed(id: Id, conflict: bool)
      requires Valid() && id in db.runs && id in (if conflict then db.conflicted else db.refused)
      modifies `db, `history
      ensures Valid()
      ensures db == if old(db.runs[id].status).Running? then old(db).Set(id, Failed(conflict)) else old(db)
    {
      if db.runs[id].status.Running? { Do(Fail(id, conflict)); }
    }

    // The statement that marks a running row succeeded, and what it finds.
    method MarkRunSucceeded(id: Id)
      requires Valid() && id in db.runs && id in db.heard
      modifies `db, `history
      ensures Valid() && db.Landed(ForRun(id))
      ensures db == if old(db.runs[id].status).Running? then old(db).Set(id, Succeeded) else old(db)
    {
      if db.runs[id].status.Running? { Do(Succeed(id)); }
      Reached(start, history, db, limit, 0);
    }

    // What is left of a row's status: a running row succeeds or fails with the
    // store's answer and stays running when the answer is lost.
    static function Settled(status: Status, answer: Answer, ok: bool): Status {
      if !status.Running? || answer.Lost? then status
      else if ok then Succeeded
      else Failed(answer.Answered?)
    }

    // executeRun, for a run the caller has in hand.  The store lands the mutation
    // once, at the version the run was prepared for, and the row follows its
    // answer.
    method ExecuteRun(id: Id, answer: Answer) returns (ok: bool)
      requires Valid() && id in db.holders && id in db.runs
      modifies `db, `history
      ensures Valid() && OneRow(old(db), db, id)
      ensures var landed := old(db.Landed(ForRun(id)));
              var current := old(db.BookOf(db.runs[id].workbook).version == db.runs[id].base);
              && (ok <==> answer.Answered? && (landed || current) && db.runs[id].status.Succeeded?)
              && (db.Landed(ForRun(id)) <==> landed || (current && (answer.Answered? || answer == Lost(true))))
              && db.runs[id].status == Settled(old(db.runs[id].status), answer, ok)
      ensures old(db.runs[id].status).Running? ==> Executed(old(db), db, id, answer)
    {
      hide Valid, State.Landed, State.BookOf;
      ok := false;
      var row := db.runs[id];
      var landed := db.Landed(ForRun(id));
      var current := db.BookOf(row.workbook).version == row.base;
      match answer {
        case Lost(committed) =>
          if committed && !landed && current { LandUntold(id); }
        case Refused =>
          Reject(id, false);
        case Answered =>
          if !landed && !current {
            Reject(id, true);
          } else {
            Apply(id);
            ok := db.runs[id].status.Succeeded?;
          }
      }
    }

    // What executing one run leaves alone.
    static ghost predicate OneRow(s: State, t: State, id: Id) {
      && RowsStay(s, t) && t.items == s.items && t.confirmed == s.confirmed && t.clock == s.clock && t.runs.Keys == s.runs.Keys
      && (forall other :: other in s.runs && other != id ==> t.runs[other] == s.runs[other])
    }

    // The store refuses the mutation and the row is told.
    method Reject(id: Id, conflict: bool)
      requires Valid() && id in db.holders && id in db.runs
      requires conflict ==> !db.Landed(ForRun(id)) && db.BookOf(db.runs[id].workbook).version != db.runs[id].base
      modifies `db, `history
      ensures Valid() && OneRow(old(db), db, id)
      ensures db.Landed(ForRun(id)) == old(db.Landed(ForRun(id)))
      ensures db.runs[id].status == if old(db.runs[id].status).Running? then Failed(conflict) else old(db.runs[id].status)
    {
      hide MayInsert, HasRow, Path, Initial;
      if conflict { Do(Conflict(id)); } else { Do(Refuse(id)); }
      MarkRunFailed(id, conflict);
    }

    // The store applies the mutation and nobody hears of it.
    method LandUntold(id: Id)
      requires Valid() && id in db.holders && id in db.runs && !db.Landed(ForRun(id))
      requires db.BookOf(db.runs[id].workbook).version == db.runs[id].base
      modifies `db, `history
      ensures Valid() && OneRow(old(db), db, id) && db.Landed(ForRun(id)) && db.runs == old(db.runs)
    {
      hide MayInsert, HasRow, Path, Initial;
      Do(LandRun(id, false));
    }

    // The store applies the mutation or has it already, and the row is told.
    method Apply(id: Id)
      requires Valid() && id in db.holders && id in db.runs
      requires db.Landed(ForRun(id)) || db.BookOf(db.runs[id].workbook).version == db.runs[id].base
      modifies `db, `history
      ensures Valid() && OneRow(old(db), db, id) && db.Landed(ForRun(id))
      ensures db.runs[id].status == if old(db.runs[id].status).Running? then Succeeded else old(db.runs[id].status)
    {
      hide MayInsert, HasRow, Path, Initial, Clashes, Counted;
      if db.Landed(ForRun(id)) {
        Do(ReplayRun(id));
      } else {
        Do(LandRun(id, true));
      }
      MarkRunSucceeded(id);
    }

    // Undo of one run: a succeeded row is claimed, or one claimed under this key taken
    // up again; the store undoes the mutation once, and the row is undone or, when the
    // store fails, succeeded again.
    method Undo(id: Id, key: string, answer: Answer) returns (r: UndoResult)
      requires Valid() && id in db.runs
      modifies `db, `history
      ensures Valid() && OneRow(old(db), db, id)
      ensures var row := old(db.runs[id]);
              && (r.UndidBefore? <==> row.status.Undone? && row.undoKey == Some(key))
              && (r.NotOpen? <==> !r.UndidBefore? && !row.status.Succeeded? && !(row.status.Undoing? && row.undoKey == Some(key)))
              && (r.UndidBefore? || r.NotOpen? ==> db == old(db))
              && (r.Undid? || r.UndoFailed? ==> (r.Undid? <==> answer.Answered?) && db.runs[id].undoKey == Some(key))
      ensures r.Undid? ==> db.runs[id].status.Undone? && db.Landed(ForUndo(id)) && db.Landed(ForRun(id))
      ensures r.UndoFailed? ==> db.runs[id].status.Succeeded? && (db.Landed(ForUndo(id)) <==> old(db.Landed(ForUndo(id))) || answer == Lost(true))
    {
      hide MayInsert, HasRow, Path, Initial, Clashes, Counted, Sound, State.Landed;
      var row := db.runs[id];
      if row.status.Undone? && row.undoKey == Some(key) { return UndidBefore; }
      if !row.status.Succeeded? && !(row.status.Undoing? && row.undoKey == Some(key)) { return NotOpen; }
      HoldUndo(id, key);
      r := ExecuteUndo(id, key, answer);
    }

    method HoldUndo(id: Id, key: string)
      requires Valid() && id in db.runs
      requires db.runs[id].status.Succeeded? || (db.runs[id].status.Undoing? && db.runs[id].undoKey == Some(key))
      modifies `db, `history
      ensures Valid() && OneRow(old(db), db, id) && db.Landed(ForUndo(id)) == old(db.Landed(ForUndo(id)))
      ensures db.runs[id].status.Undoing? && db.runs[id].undoKey == Some(key) && id in db.undoHolders
    {
      hide MayInsert, HasRow, Path, Initial, Clashes, Counted;
      if db.runs[id].status.Succeeded? { Do(ClaimUndo(id, key)); } else { Do(PickUndo(id, key)); }
    }

    method ExecuteUndo(id: Id, key: string, answer: Answer) returns (r: UndoResult)
      requires Valid() && id in db.runs && id in db.undoHolders && db.runs[id].status.Undoing? && db.runs[id].undoKey == Some(key)
      modifies `db, `history
      ensures Valid() && OneRow(old(db), db, id) && db.runs[id].undoKey == Some(key)
      ensures r == if answer.Answered? then Undid else UndoFailed
      ensures r.Undid? ==> db.runs[id].status.Undone? && db.Landed(ForUndo(id)) && db.Landed(ForRun(id))
      ensures r.UndoFailed? ==> db.runs[id].status.Succeeded? && (db.Landed(ForUndo(id)) <==> old(db.Landed(ForUndo(id))) || answer == Lost(true))
    {
      hide MayInsert, HasRow, Path, Initial, State.Landed;
      if answer.Answered? || answer == Lost(true) { ReachUndo(id, answer.Answered?); }
      if answer.Answered? {
        MarkUndone(id, key);
        return Undid;
      }
      MarkNotUndone(id);
      r := UndoFailed;
    }

    method MarkUndone(id: Id, key: string)
      requires Valid() && id in db.runs && id in db.undoHeard && db.runs[id].status.Undoing? && db.runs[id].undoKey == Some(key)
      modifies `db, `history
      ensures Valid() && OneRow(old(db), db, id) && db.runs[id].undoKey == Some(key)
      ensures db.runs[id].status.Undone? && db.Landed(ForUndo(id)) && db.Landed(ForRun(id))
    {
      hide MayInsert, HasRow, Path, Initial, Sound, State.Landed;
      Do(CompleteUndo(id, key));
      Reached(start, history, db, limit, 0);
      UndoneLanded(db, id, limit);
    }

    method MarkNotUndone(id: Id)
      requires Valid() && id in db.runs && id in db.undoHolders && db.runs[id].status.Undoing?
      modifies `db, `history
      ensures Valid() && OneRow(old(db), db, id) && db.runs[id].undoKey == old(db.runs[id].undoKey)
      ensures db.runs[id].status.Succeeded? && db.Landed(ForUndo(id)) == old(db.Landed(ForUndo(id)))
    {
      hide MayInsert, HasRow, Path, Initial;
      Do(ResetUndo(id));
    }

    // The store undoes the mutation, or has done so before.
    method ReachUndo(id: Id, told: bool)
      requires Valid() && id in db.runs && id in db.undoHolders
      modifies `db, `history
      ensures Valid() && OneRow(old(db), db, id) && db.runs == old(db.runs) && db.undoHolders == old(db.undoHolders)
      ensures db.Landed(ForUndo(id)) && (told ==> id in db.undoHeard)
    {
      hide MayInsert, HasRow, Path, Initial, Clashes, Counted;
      if !db.Landed(ForUndo(id)) {
        Do(LandUndo(id, told));
      } else if told {
        Do(ReplayUndo(id));
      }
    }

    static lemma UndoneLanded(s: State, id: Id, limit: int)
      requires Sound(s, limit, 0) && id in s.runs && s.runs[id].status.Undone?
      ensures s.Landed(ForUndo(id)) && s.Landed(ForRun(id))
    {
    }

    method FindScheduled(a: Id, due: int) returns (r: Option<Id>)
      ensures r.Some? ==> r.value in db.runs && db.runs[r.value].automation == a && db.runs[r.value].scheduledFor == Some(due)
      ensures r.None? ==> !HasRow(db, a, due)
    {
      var found := set id | id in db.runs && db.runs[id].automation == a && db.runs[id].scheduledFor == Some(due);
      if found == {} {
        assert forall id :: id in db.runs && db.runs[id].automation == a && db.runs[id].scheduledFor == Some(due) ==> id in found;
        return None;
      }
      var id :| id in found;
      r := Some(id);
    }

    static predicate SlotRow(s: State, id: Id, d: Due) {
      id in s.runs && s.runs[id].automation == d.item && s.runs[id].scheduledFor == Some(d.due)
    }

    // The row a due automation gets.
    static function SlotRun(s: State, d: Due, skip: bool): Run {
      Run(d.item, d.workbook, SchedulerActor, Scheduled(d.due), None, Some(d.due),
          if skip then Skipped else Running, true, s.BookOf(d.workbook).version, s.clock, None)
    }

    // The automation is enabled and as the scheduler found it, its slot has no row,
    // and fewer than `limit` runs of its workbook started in the last hour.
    static ghost predicate Runnable(s: State, d: Due, limit: int) {
      && d.item in s.items && s.items[d.item].enabled && !s.items[d.item].deleted && s.items[d.item].revision == d.revision
      && (forall id :: id in s.runs ==> !SlotRow(s, id, d))
      && |set id | id in s.runs && s.runs[id].workbook == d.workbook && s.runs[id].counted && s.clock - 3600 <= s.runs[id].startedAt <= s.clock| < limit
    }

    // What executing a row leaves of it: a running one succeeds with its cells in the
    // workbook, fails on a changed workbook or a refusal, and stays running when the
    // answer was lost; any other is left alone.
    static ghost predicate Executed(s: State, t: State, id: Id, answer: Answer)
      requires id in s.runs
    {
      && id in t.runs
      && var landed, current := s.Landed(ForRun(id)), s.BookOf(s.runs[id].workbook).version == s.runs[id].base;
      if !s.runs[id].status.Running? then t.runs[id].status == s.runs[id].status && t.Landed(ForRun(id)) == landed
      else match answer
           case Answered => if landed || current then t.runs[id].status.Succeeded? && t.Landed(ForRun(id)) else t.runs[id].status == Failed(true) && !t.Landed(ForRun(id))
           case Refused => t.runs[id].status == Failed(false) && t.Landed(ForRun(id)) == landed
           case Lost(committed) => t.runs[id].status.Running? && (t.Landed(ForRun(id)) <==> landed || (current && committed))
    }

    // The row a runnable automation gets: skipped when nothing would change,
    // otherwise as the store answered.
    static ghost predicate Started(t: State, d: Due, id: Id, skip: bool, answer: Answer) {
      && SlotRow(t, id, d) && t.runs[id].counted
      && (t.Landed(ForRun(id)) <==> !skip && (answer.Answered? || answer == Lost(true)))
      && if skip then t.runs[id].status.Skipped?
         else match answer
              case Answered => t.runs[id].status.Succeeded?
              case Refused => t.runs[id].status == Failed(false)
              case Lost(_) => t.runs[id].status.Running?
    }

    // What running a slot leaves: its row executed, a new one started, or nothing
    // when it cannot be run.
    static ghost predicate Ran(s: State, t: State, d: Due, skip: bool, answer: Answer, limit: int) {
      && (forall id :: SlotRow(s, id, d) ==> Executed(s, t, id, answer))
      && (Runnable(s, d, limit) ==> exists id :: id !in s.runs && Started(t, d, id, skip, answer))
      && (!HasRow(s, d.item, d.due) && !Runnable(s, d, limit) ==> !HasRow(t, d.item, d.due))
    }

    // With its failure written down where it could not be run.
    static ghost predicate Served(s: State, t: State, d: Due, skip: bool, answer: Answer, limit: int) {
      && (forall id :: SlotRow(s, id, d) ==> Executed(s, t, id, answer))
      && (Runnable(s, d, limit) ==> exists id :: id !in s.runs && Started(t, d, id, skip, answer))
      && (!HasRow(s, d.item, d.due) && !Runnable(s, d, limit) ==>
            forall id :: SlotRow(t, id, d) ==> t.runs[id].status == Failed(false) && !t.runs[id].counted && !t.Landed(ForRun(id)))
    }

    // Run for one due automation: resume or replay the slot's row if it has one,
    // otherwise write one.  `skip` says the action would change nothing.
    method RunSlot(d: Due, skip: bool, answer: Answer) returns (ok: bool)
      requires Valid()
      modifies this
      ensures Valid() && RowsStay(old(db), db) && db.items == old(db.items) && old(db).confirmed <= db.confirmed
      ensures ok ==> HasRow(db, d.item, d.due)
      ensures !ok && HasRow(db, d.item, d.due) ==> exists id :: SlotRow(db, id, d) && (db.runs[id].status.Running? || db.runs[id].status.Failed?)
      ensures forall id :: id in old(db.runs) && old(db.runs[id].automation) != d.item ==> db.runs[id] == old(db.runs[id])
      ensures Ran(old(db), db, d, skip, answer, limit)
    {
      hide MayInsert, Path, Initial, Ran;
      var existing := FindScheduled(d.item, d.due);
      if existing.Some? {
        ok := ResumeSlot(existing.value, d, skip, answer);
      } else {
        ok := StartSlot(d, skip, answer);
      }
    }

    // The slot has this row.
    method ResumeSlot(id: Id, d: Due, skip: bool, answer: Answer) returns (ok: bool)
      requires Valid() && SlotRow(db, id, d)
      modifies this
      ensures Valid() && RowsStay(old(db), db) && db.items == old(db.items) && old(db).confirmed <= db.confirmed
      ensures HasRow(db, d.item, d.due) && (!ok ==> SlotRow(db, id, d) && (db.runs[id].status.Running? || db.runs[id].status.Failed?))
      ensures forall id :: id in old(db.runs) && old(db.runs[id].automation) != d.item ==> db.runs[id] == old(db.runs[id])
      ensures Ran(old(db), db, d, skip, answer, limit)
    {
      hide MayInsert, Path, Initial, Ran, HasRow, Executed, State.Landed, State.BookOf, Sound;
      ghost var found := db;
      IsSlotRow(found, id, d);
      Reached(start, history, found, limit, 0);
      OnlyRows(found, limit);
      if !db.runs[id].status.Running? {
        ok := !db.runs[id].status.Failed?;
        LeftAlone(found, id, answer);
      } else {
        Do(Pick(id));
        PickedAlike(found, id, answer);
        ok := ExecuteRun(id, answer);
        KeepsHasRow(found, db, d.item, d.due);
      }
      RanFound(found, db, d, id, skip, answer, limit);
    }

    static lemma IsSlotRow(s: State, id: Id, d: Due)
      requires SlotRow(s, id, d)
      ensures HasRow(s, d.item, d.due)
    {
    }

    static lemma OnlyRows(s: State, limit: int)
      requires Sound(s, limit, 0)
      ensures RowsUnique(s) && LogSound(s)
    {
    }

    static lemma LeftAlone(s: State, id: Id, answer: Answer)
      requires id in s.runs && !s.runs[id].status.Running?
      ensures Executed(s, s, id, answer)
    {
    }

    static lemma PickedAlike(s: State, id: Id, answer: Answer)
      requires id in s.runs
      ensures var picked := s.(holders := s.holders + {id});
              forall t :: Executed(picked, t, id, answer) ==> Executed(s, t, id, answer)
    {
    }

    // The slot has no row.
    method StartSlot(d: Due, skip: bool, answer: Answer) returns (ok: bool)
      requires Valid() && !HasRow(db, d.item, d.due)
      modifies this
      ensures Valid() && RowsStay(old(db), db) && db.items == old(db.items) && old(db).confirmed <= db.confirmed
      ensures ok ==> HasRow(db, d.item, d.due)
      ensures !ok && HasRow(db, d.item, d.due) ==> exists id :: SlotRow(db, id, d) && (db.runs[id].status.Running? || db.runs[id].status.Failed?)
      ensures forall id :: id in old(db.runs) && old(db.runs[id].automation) != d.item ==> db.runs[id] == old(db.runs[id])
      ensures Ran(old(db), db, d, skip, answer, limit)
    {
      hide MayInsert, Path, Initial, Ran, HasRow, State.Landed, State.BookOf, Sound, Started, Executed;
      ghost var before := db;
      Reached(start, history, before, limit, 0);
      OnlyRows(before, limit);
      var r, id := InsertRun(SlotRun(db, d, skip), true, Some(d.revision));
      MayStart(before, id, d, skip, limit);
      if !r.Created? {
        RanNot(before, d, skip, answer, limit);
        return false;
      }
      ghost var written := db;
      IsSlotRow(written, id, d);
      ok := true;
      if !skip {
        ok := ExecuteRun(id, answer);
        KeepsHasRow(written, db, d.item, d.due);
      }
      NewIsStarted(before, written, db, id, d, skip, answer);
      RanNew(before, db, d, id, skip, answer, limit);
    }

    // A scheduled row goes in exactly for a runnable automation.
    static lemma MayStart(s: State, id: Id, d: Due, skip: bool, limit: int)
      requires id !in s.runs && limit > 0
      requires forall other :: other in s.runs && s.runs[other].key.Scheduled? ==> s.runs[other].scheduledFor == Some(s.runs[other].key.due)
      ensures MayInsert(s, id, SlotRun(s, d, skip), limit, Some(d.revision), 0) <==> Runnable(s, d, limit)
    {
      var run := SlotRun(s, d, skip);
      assert Counted(s, d.workbook, s.clock - HOUR, s.clock)
          == set id | id in s.runs && s.runs[id].workbook == d.workbook && s.runs[id].counted && s.clock - 3600 <= s.runs[id].startedAt <= s.clock;
      forall other | other in s.runs ensures Clashes(run, s.runs[other]) <==> SlotRow(s, other, d) {}
    }

    static lemma RanFound(s: State, t: State, d: Due, id: Id, skip: bool, answer: Answer, limit: int)
      requires SlotRow(s, id, d) && RowsUnique(s) && Executed(s, t, id, answer)
      ensures Ran(s, t, d, skip, answer, limit)
    {
      assert HasRow(s, d.item, d.due);
      forall other | SlotRow(s, other, d) ensures other == id {
        if other != id { assert Clashes(s.runs[other], s.runs[id]); }
      }
    }

    static lemma RanNot(s: State, d: Due, skip: bool, answer: Answer, limit: int)
      requires !HasRow(s, d.item, d.due) && !Runnable(s, d, limit)
      ensures Ran(s, s, d, skip, answer, limit)
    {
      hide Executed;
    }

    static lemma RanNew(s: State, t: State, d: Due, id: Id, skip: bool, answer: Answer, limit: int)
      requires !HasRow(s, d.item, d.due) && Runnable(s, d, limit) && id !in s.runs && Started(t, d, id, skip, answer)
      ensures Ran(s, t, d, skip, answer, limit)
    {
      hide Executed, Started;
    }

    // A new row stands at the workbook's version and has landed nothing, so its
    // execution goes through when the store answers.
    static lemma NewIsStarted(s: State, written: State, t: State, id: Id, d: Due, skip: bool, answer: Answer)
      requires LogSound(s) && id !in s.runs && RowsStay(written, t)
      requires written.runs == s.runs[id := SlotRun(s, d, skip)] && written.books == s.books
      requires if skip then t == written else Executed(written, t, id, answer)
      ensures Started(t, d, id, skip, answer)
    {
      assert !written.Landed(ForRun(id));
    }

    // recordScheduledFailure: a failed row for a slot that has none, outside the
    // hourly count, unless reading the workbook or writing the row fails.
    method RecordFailure(d: Due, fault: Fault) returns (ok: bool)
      requires Valid()
      modifies this
      ensures Valid() && RowsStay(old(db), db) && db.items == old(db.items) && old(db).confirmed <= db.confirmed
      ensures ok <==> fault.NoFault?
      ensures HasRow(db, d.item, d.due) <==> old(HasRow(db, d.item, d.due)) || !fault.LostBefore?
      ensures old(HasRow(db, d.item, d.due)) || fault.LostBefore? ==> db == old(db)
      ensures forall id :: id in old(db.runs) ==> db.runs[id] == old(db.runs[id])
      ensures forall id :: SlotRow(db, id, d) && id !in old(db.runs) ==> db.runs[id].status == Failed(false) && !db.runs[id].counted
      ensures db.books == old(db.books)
    {
      hide MayInsert;
      if fault.LostBefore? { return false; }
      ok := fault.NoFault?;
      var run := Run(d.item, d.workbook, SchedulerActor, Scheduled(d.due), None, Some(d.due),
                     Failed(false), false, db.BookOf(d.workbook).version, db.clock, None);
      var r, id := InsertRun(run, false, None);
      NoOtherObstacle(old(db), id, run);
      if r.Created? { assert SlotRow(db, id, d); }
    }

    // A row without operation, outside the count, meets no obstacle but a row for
    // its key or its slot.
    static lemma NoOtherObstacle(s: State, id: Id, run: Run)
      requires run.operation.None? && run.scheduledFor.Some? && run.key == Scheduled(run.scheduledFor.value) && !run.counted
      requires id !in s.runs && run.startedAt == s.clock && run.base <= s.BookOf(run.workbook).version && run.status == Failed(false)
      requires forall other :: other in s.runs && s.runs[other].key.Scheduled? ==> s.runs[other].scheduledFor == Some(s.runs[other].key.due)
      ensures MayInsert(s, id, run, 0, None, 0) <==> !HasRow(s, run.automation, run.scheduledFor.value)
    {
      if HasRow(s, run.automation, run.scheduledFor.value) {
        var other :| other in s.runs && s.runs[other].automation == run.automation && s.runs[other].scheduledFor == run.scheduledFor;
        assert Clashes(run, s.runs[other]);
      }
    }

    // advanceSchedule: `next` is the schedule's next time after both `due` and
    // `now`, or None when it has none within reach.
    method AdvanceSchedule(d: Due, now: int, next: Option<int>)
      requires Valid() && HasRow(db, d.item, d.due) && (next.Some? ==> next.value > d.due && next.value > now)
      modifies `db, `history
      ensures Valid() && db.runs == old(db.runs) && db.books == old(db.books)
      ensures db.items == Advanced(old(db.items), d, next)
    {
      Do(Confirm(d.item, d.due));
      if next.Some? && d.item in db.items && db.items[d.item].revision == d.revision
         && db.items[d.item].nextRunAt == Some(d.due) && !db.items[d.item].deleted {
        Do(Advance(d.item, d.revision, d.due, now, next.value));
      }
    }

    static function Advanced(items: map<Id, Definition>, d: Due, next: Option<int>): map<Id, Definition> {
      if next.Some? && Waiting(items, d) then items[d.item := items[d.item].(nextRunAt := next)] else items
    }

    // The definition is as the scheduler read it and still waits for this time.
    static predicate Waiting(items: map<Id, Definition>, d: Due) {
      d.item in items && items[d.item].revision == d.revision && items[d.item].nextRunAt == Some(d.due) && !items[d.item].deleted
    }

    static ghost predicate SlotRunning(s: State, d: Due) {
      exists id :: SlotRow(s, id, d) && s.runs[id].status.Running?
    }

    // RunDueSchedules over the automations found due, each once.  Whatever fails
    // on the way, every slot has its run row in the end or is still due with its
    // definition unchanged; and its automation moves on to the next time unless
    // the slot's run is still running or a statement failed.
    // `trace` are the states between them: each slot is served on what the ones
    // before it left, and its rows are not touched by the ones after it.
    method RunDueSchedules(dues: seq<Due>, now: int, nexts: seq<Option<int>>, skips: seq<bool>, answers: seq<Answer>, faults: seq<Faults>)
      returns (ghost trace: seq<State>)
      requires Valid() && |nexts| == |skips| == |answers| == |faults| == |dues|
      requires forall i :: 0 <= i < |dues| && nexts[i].Some? ==> nexts[i].value > dues[i].due && nexts[i].value > now
      requires forall i, j :: 0 <= i < j < |dues| ==> dues[i].item != dues[j].item
      modifies this
      ensures Valid() && db.items.Keys == old(db.items.Keys)
      ensures forall i :: 0 <= i < |dues| ==> SlotDone(old(db).items, db, dues[i], nexts[i], faults[i])
      ensures forall a :: a in old(db.items) && (forall i :: 0 <= i < |dues| ==> dues[i].item != a) ==> db.items[a] == old(db.items[a])
      ensures |trace| == |dues| + 1 && trace[0] == old(db) && trace[|dues|] == db
      ensures forall i :: 0 <= i < |dues| ==> Served(trace[i], trace[i + 1], dues[i], skips[i], answers[i], limit)
      ensures forall i :: 0 <= i < |dues| ==> RowsOfStay(trace[i + 1], db, dues[i].item)
    {
      hide Path, Initial, MayInsert, SlotDone, Served, RowsOfStay, SlotRow;
      var i := 0;
      trace := [db];
      while i < |dues|
        invariant 0 <= i <= |dues| && Valid() && db.items.Keys == old(db.items.Keys)
        invariant |trace| == i + 1 && trace[0] == old(db) && trace[i] == db
        invariant forall k :: 0 <= k < i ==> Served(trace[k], trace[k + 1], dues[k], skips[k], answers[k], limit)
        invariant forall k :: 0 <= k < i ==> RowsOfStay(trace[k + 1], db, dues[k].item)
        invariant forall k :: 0 <= k < i ==> SlotDone(old(db).items, db, dues[k], nexts[k], faults[k])
        invariant forall a :: a in old(db.items) && (forall k :: 0 <= k < i ==> dues[k].item != a) ==> db.items[a] == old(db.items[a])
      {
        ghost var before := db;
        ServeSlot(dues[i], now, nexts[i], skips[i], answers[i], faults[i]);
        SlotFrom(old(db).items, before.items, db, dues[i], nexts[i], faults[i]);
        forall k | 0 <= k < i
          ensures SlotDone(old(db).items, db, dues[k], nexts[k], faults[k])
        {
          SlotStaysDone(old(db).items, before, db, dues[k], nexts[k], faults[k], dues[i].item);
        }
        forall k | 0 <= k < i
          ensures RowsOfStay(trace[k + 1], db, dues[k].item)
        {
          RowsOfStill(trace[k + 1], before, db, dues[k].item, dues[i].item);
        }
        RowsOfSelf(db, dues[i].item);
        trace := trace + [db];
        i := i + 1;
      }
    }

    static ghost predicate RowsOfStay(s: State, t: State, item: Id) {
      forall id :: id in s.runs && s.runs[id].automation == item ==> id in t.runs && t.runs[id] == s.runs[id]
    }

    static lemma RowsOfSelf(s: State, item: Id)
      ensures RowsOfStay(s, s, item)
    {
    }

    static lemma RowsOfStill(s: State, before: State, t: State, item: Id, other: Id)
      requires RowsOfStay(s, before, item) && item != other
      requires forall id :: id in before.runs && before.runs[id].automation != other ==> id in t.runs && t.runs[id] == before.runs[id]
      ensures RowsOfStay(s, t, item)
    {
    }

    // The slot has its row, or writing one failed and it is still due as before;
    // the definition has moved on exactly as it should, waits for its run, or
    // stands where a failed statement left it.
    static ghost predicate SlotDone(items: map<Id, Definition>, s: State, d: Due, next: Option<int>, faults: Faults) {
      && (HasRow(s, d.item, d.due) || faults.record.LostBefore?)
      && (d.item in items ==>
            && d.item in s.items
            && (s.items[d.item] == items[d.item] || (HasRow(s, d.item, d.due) && s.items[d.item] == Advanced(items, d, next)[d.item]))
            && (s.items[d.item] != Advanced(items, d, next)[d.item] ==>
                  SlotRunning(s, d) || !faults.record.NoFault? || faults.advance.LostBefore?))
    }

    static lemma SlotFrom(items: map<Id, Definition>, before: map<Id, Definition>, s: State, d: Due, next: Option<int>, faults: Faults)
      requires SlotDone(before, s, d, next, faults)
      requires d.item in items ==> d.item in before && before[d.item] == items[d.item]
      ensures SlotDone(items, s, d, next, faults)
    {
    }

    static lemma SlotStaysDone(items: map<Id, Definition>, s: State, t: State, d: Due, next: Option<int>, faults: Faults, other: Id)
      requires SlotDone(items, s, d, next, faults) && d.item != other && RowsStay(s, t)
      requires s.items.Keys == t.items.Keys && (forall a :: a in s.items && a != other ==> t.items[a] == s.items[a])
      requires forall id :: id in s.runs && s.runs[id].automation != other ==> id in t.runs && t.runs[id] == s.runs[id]
      ensures SlotDone(items, t, d, next, faults)
    {
      hide HasRow;
      if HasRow(s, d.item, d.due) { KeepsHasRow(s, t, d.item, d.due); }
      if SlotRunning(s, d) {
        var id :| SlotRow(s, id, d) && s.runs[id].status.Running?;
        assert SlotRow(t, id, d) && t.runs[id].status.Running?;
      }
    }

    // One due automation: run it or find its run, write a failed run if there is
    // none, and advance unless the run is found still running.  A lookup that
    // fails takes the way of a row that is not there.
    method ServeSlot(d: Due, now: int, next: Option<int>, skip: bool, answer: Answer, faults: Faults)
      requires Valid() && (next.Some? ==> next.value > d.due && next.value > now)
      modifies this
      ensures Valid() && RowsStay(old(db), db)
      ensures db.items.Keys == old(db.items.Keys) && SlotDone(old(db).items, db, d, next, faults)
      ensures forall a :: a in old(db.items) && a != d.item ==> db.items[a] == old(db.items[a])
      ensures forall id :: id in old(db.runs) && old(db.runs[id].automation) != d.item ==> id in db.runs && db.runs[id] == old(db.runs[id])
      ensures Served(old(db), db, d, skip, answer, limit)
      // Unless the run is found running or a statement fails, a definition that still
      // waits for this time moves to the next.
      ensures d.item in old(db.items) && next.Some? && !SlotRunning(db, d) && faults.record.NoFault? && !faults.advance.LostBefore? ==>
                var was := old(db.items[d.item]);
                db.items[d.item] == if was.revision == d.revision && was.nextRunAt == Some(d.due) && !was.deleted then was.(nextRunAt := next) else was
    {
      hide Path, Initial, MayInsert, HasRow, Ran, Served, State.Landed, State.BookOf, Sound, LogSound, RowsUnique;
      var ready := RunSlot(d, skip, answer);
      ghost var ran := db;
      Reached(start, history, ran, limit, 0);
      OnlyRows(ran, limit);
      if !ready { ready := FindOrRecord(d, faults); }
      ghost var found := db;
      if ready && !faults.advance.LostBefore? { AdvanceSchedule(d, now, next); }
      if HasRow(found, d.item, d.due) { KeepsHasRow(found, db, d.item, d.due); }
      ServedFrom(old(db), ran, db, d, skip, answer, limit);
    }

    // Looking for the slot's row, writing its failure down and advancing leave what
    // the run did alone.
    static lemma ServedFrom(s: State, ran: State, t: State, d: Due, skip: bool, answer: Answer, limit: int)
      requires Ran(s, ran, d, skip, answer, limit) && RowsStay(s, ran) && LogSound(ran) && t.books == ran.books
      requires forall id :: id in ran.runs ==> id in t.runs && t.runs[id] == ran.runs[id]
      requires forall id :: SlotRow(t, id, d) && id !in ran.runs ==> t.runs[id].status == Failed(false) && !t.runs[id].counted
      ensures Served(s, t, d, skip, answer, limit)
    {
      forall id | SlotRow(s, id, d) ensures Executed(s, t, id, answer) { assert Executed(s, ran, id, answer); }
      if Runnable(s, d, limit) {
        var id :| id !in s.runs && Started(ran, d, id, skip, answer);
        assert Started(t, d, id, skip, answer);
      } else if !HasRow(s, d.item, d.due) {
        forall id | SlotRow(t, id, d) ensures t.runs[id].status == Failed(false) && !t.runs[id].counted && !t.Landed(ForRun(id)) {
          if id in ran.runs { IsSlotRow(ran, id, d); }
        }
      }
    }

    // After a run that was refused or broke off: whether its slot may be left.
    method FindOrRecord(d: Due, faults: Faults) returns (ready: bool)
      requires Valid()
      modifies this
      ensures Valid() && RowsStay(old(db), db) && db.items == old(db.items)
      ensures HasRow(db, d.item, d.due) || faults.record.LostBefore?
      ensures ready ==> HasRow(db, d.item, d.due)
      ensures !ready ==> SlotRunning(db, d) || !faults.record.NoFault?
      ensures forall id :: id in old(db.runs) ==> id in db.runs && db.runs[id] == old(db.runs[id])
      ensures forall id :: SlotRow(db, id, d) && id !in old(db.runs) ==> db.runs[id].status == Failed(false) && !db.runs[id].counted
      ensures db.books == old(db.books) && (old(HasRow(db, d.item, d.due)) ==> db.runs == old(db.runs))
    {
      hide Path, Initial, MayInsert;
      if !faults.lookup {
        var existing := FindScheduled(d.item, d.due);
        if existing.Some? {
          assert SlotRow(db, existing.value, d);
          return !db.runs[existing.value].status.Running?;
        }
      }
      ready := RecordFailure(d, faults.record);
    }
  }
}
