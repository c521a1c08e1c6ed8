/**
  The life of one AI action: a row whose status and revision move only by
  compare-and-set, two idempotency keys, and the workbook store its cells land
  in.  Callers may crash, retry and race at every step.
*/
module AiAction {
  import opened CellAddress

  datatype Status = Planned | Applying | Applied | Undoing | Undone | Failed | Cancelled

  datatype StoreKey = ForApproval(key: string) | ForUndo(key: string)

  datatype Action = Action(
    status: Status,
    revision: int,
    approvalKey: Option<string>,
    undoKey: Option<string>,
    toolOnly: bool,                // the plan has no cell changes
    landed: seq<StoreKey>,         // what the store has applied for this action
    approving: set<string>,        // keys callers are executing an approval with
    approved: set<string>,         // keys callers were told the cells landed for
    undoing: set<string>,
    undone: set<string>,
    wasApplied: bool)              // the row has said applied at some time

  datatype Step =
    | ClaimApproval(key: string, expected: int)
    | ResumeApproval(key: string)
    | LandCells(key: string, told: bool)
    | ReplayCells(key: string)
    | CompleteApproval(key: string)
    | CompleteToolOnly(key: string)
    | MarkFailed
    | Cancel(expected: int)
    | Supersede
    | ClaimUndo(key: string, expected: int)
    | ResumeUndo(key: string)
    | LandUndo(key: string, told: bool)
    | ReplayUndo(key: string)
    | CompleteUndo(key: string)
    | RollBackToolOnly(key: string, expected: int)

  // Claiming, cancelling and rolling back compare both status and revision.
  predicate Open(a: Action, expected: int) { a.status.Planned? && a.revision == expected }

  predicate Enabled(a: Action, step: Step) {
    match step
    case ClaimApproval(_, expected) => Open(a, expected)
    case ResumeApproval(key) => a.status.Applying? && a.approvalKey == Some(key)
    case LandCells(key, _) => key in a.approving && !a.toolOnly && ForApproval(key) !in a.landed
    case ReplayCells(key) => key in a.approving && ForApproval(key) in a.landed
    case CompleteApproval(key) => key in a.approved && a.status.Applying? && a.approvalKey == Some(key)
    case CompleteToolOnly(key) =>
      key in a.approving && a.toolOnly && (a.status.Applying? || a.status.Applied?) && a.approvalKey == Some(key)
    case MarkFailed => (a.approving != {} || a.undoing != {}) && (a.status.Applying? || a.status.Undoing?)
    case Cancel(expected) => Open(a, expected)
    case Supersede => a.status.Planned?
    case ClaimUndo(_, expected) => a.status.Applied? && a.revision == expected
    case ResumeUndo(key) => a.status.Undoing? && a.undoKey == Some(key)
    case LandUndo(key, _) => key in a.undoing && !a.toolOnly && ForUndo(key) !in a.landed
    case ReplayUndo(key) => key in a.undoing && ForUndo(key) in a.landed
    case CompleteUndo(key) => key in a.undone && a.status.Undoing? && a.undoKey == Some(key)
    case RollBackToolOnly(_, expected) => a.status.Applied? && a.revision == expected && a.toolOnly
  }

  function After(a: Action, step: Step): Action {
    match step
    case ClaimApproval(key, _) =>
      a.(status := Applying, revision := a.revision + 1, approvalKey := Some(key), approving := a.approving + {key})
    case ResumeApproval(key) => a.(approving := a.approving + {key})
    case LandCells(key, told) =>
      a.(landed := a.landed + [ForApproval(key)], approved := if told then a.approved + {key} else a.approved)
    case ReplayCells(key) => a.(approved := a.approved + {key})
    case CompleteApproval(_) => a.(status := Applied, wasApplied := true)
    case CompleteToolOnly(_) => a.(status := Applied, wasApplied := true)
    case MarkFailed => a.(status := Failed)
    case Cancel(_) => a.(status := Cancelled, revision := a.revision + 1)
    case Supersede => a.(status := Cancelled, revision := a.revision + 1)
    case ClaimUndo(key, _) =>
      a.(status := Undoing, revision := a.revision + 1, undoKey := Some(key), undoing := a.undoing + {key})
    case ResumeUndo(key) => a.(undoing := a.undoing + {key})
    case LandUndo(key, told) =>
      a.(landed := a.landed + [ForUndo(key)], undone := if told then a.undone + {key} else a.undone)
    case ReplayUndo(key) => a.(undone := a.undone + {key})
    case CompleteUndo(_) => a.(status := Undone)
    case RollBackToolOnly(key, _) => a.(status := Undone, revision := a.revision + 1, undoKey := Some(key))
  }

  predicate Path(a: Action, steps: seq<Step>, b: Action)
    decreases |steps|
  {
    if steps == [] then a == b else Enabled(a, steps[0]) && Path(After(a, steps[0]), steps[1..], b)
  }

  // A freshly planned action.
  predicate Initial(a: Action) {
    a == Action(Planned, a.revision, None, None, a.toolOnly, [], {}, {}, {}, {}, false)
  }

  // -------- what every step keeps --------

  // Callers approve, and cells land, only under the recorded keys.
  ghost predicate KeysSound(a: Action) {
    && (forall k :: k in a.approving ==> a.approvalKey == Some(k))
    && (forall k :: k in a.undoing ==> a.undoKey == Some(k))
    && (forall k :: ForApproval(k) in a.landed ==> k in a.approving && !a.toolOnly)
    && (forall k :: ForUndo(k) in a.landed ==> k in a.undoing && !a.toolOnly)
    && (forall i, j :: 0 <= i < j < |a.landed| ==> a.landed[i] != a.landed[j])
    && (forall k :: k in a.approved ==> ForApproval(k) in a.landed)
    && (forall k :: k in a.undone ==> ForUndo(k) in a.landed)
  }

  // What each status says about the keys, the history and the store.
  ghost predicate StatusSound(a: Action) {
    && (a.status.Planned? || a.status.Cancelled? ==> a.approvalKey.None? && a.undoKey.None? && !a.wasApplied)
    && (a.status.Applying? ==> a.approvalKey.Some? && a.undoKey.None? && !a.wasApplied)
    && (a.status.Applied? || a.status.Undoing? || a.status.Undone? ==> a.approvalKey.Some? && a.wasApplied)
    && (a.status.Applied? ==> a.undoKey.None?)
    && (a.status.Undoing? || a.undoing != {} ==> a.wasApplied)
    && (a.wasApplied && !a.toolOnly ==> a.approvalKey.Some? && ForApproval(a.approvalKey.value) in a.landed)
    && (a.status.Undone? && !a.toolOnly ==> a.undoKey.Some? && ForUndo(a.undoKey.value) in a.landed)
  }

  ghost predicate Sound(a: Action) { KeysSound(a) && StatusSound(a) }

  function Rank(s: Status): int {
    match s
    case Planned => 0
    case Applying => 1
    case Applied => 2
    case Undoing => 3
    case _ => 4
  }

  // How a row may differ from an earlier self.
  predicate Later(a: Action, b: Action) {
    && Rank(a.status) <= Rank(b.status)
    && (a.status.Applied? && b.status.Applied? ==> a.revision == b.revision)
    && a.approving <= b.approving && a.undoing <= b.undoing
    && a.revision <= b.revision
    && (b.status.Planned? ==> a.status.Planned? && a.revision == b.revision)
    && (a.approvalKey.Some? ==> b.approvalKey == a.approvalKey)
    && (a.undoKey.Some? ==> b.undoKey == a.undoKey)
    && (a.status.Cancelled? ==> b.status.Cancelled?)
    && (a.status.Undone? ==> b.status.Undone?)
    && (a.wasApplied ==> b.wasApplied)
    && a.landed <= b.landed
    && a.toolOnly == b.toolOnly
  }

  lemma StepKeepsKeys(a: Action, step: Step)
    requires Sound(a) && Enabled(a, step)
    ensures KeysSound(After(a, step))
  {
  }

  lemma StepKeepsStatus(a: Action, step: Step)
    requires Sound(a) && Enabled(a, step)
    ensures StatusSound(After(a, step))
  {
  }

  lemma StepGoesForward(a: Action, step: Step)
    requires Sound(a) && Enabled(a, step)
    ensures Later(a, After(a, step))
  {
    hide KeysSound;
  }

  lemma StepKeeps(a: Action, step: Step)
    requires Sound(a) && Enabled(a, step)
    ensures Sound(After(a, step)) && Later(a, After(a, step))
  {
    hide KeysSound, StatusSound, Enabled, After, Later;
    StepKeepsKeys(a, step);
    StepKeepsStatus(a, step);
    StepGoesForward(a, step);
  }

  lemma {:induction false} PathKeeps(a: Action, steps: seq<Step>, b: Action)
    requires Sound(a) && Path(a, steps, b)
    ensures Sound(b) && Later(a, b)
    decreases |steps|
  {
    hide Sound, Enabled, After;
    if steps == [] {
      assert Later(a, a);
    } else {
      StepKeeps(a, steps[0]);
      PathKeeps(After(a, steps[0]), steps[1..], b);
      assert Later(After(a, steps[0]), b);
    }
  }

  // Over every run: the revision never falls, a row never returns to planned,
  // and the first approval and undo keys recorded are the only ones ever.
  lemma LifeGoesForward(start: Action, before: seq<Step>, a: Action, more: seq<Step>, b: Action)
    requires Initial(start) && Path(start, before, a) && Path(a, more, b)
    ensures a.revision <= b.revision
    ensures !a.status.Planned? ==> !b.status.Planned?
    ensures a.approvalKey.Some? ==> b.approvalKey == a.approvalKey
    ensures a.undoKey.Some? ==> b.undoKey == a.undoKey
    ensures a.landed <= b.landed
  {
    hide Path, Sound;
    StartIsSound(start);
    PathKeeps(start, before, a);
    PathKeeps(a, more, b);
  }

  lemma StartIsSound(a: Action)
    requires Initial(a)
    ensures Sound(a)
  {
  }

  // The cells land at most once, under the one recorded key; so does the undo,
  // and only after the row has said applied.
  lemma CellsLandOnce(start: Action, steps: seq<Step>, a: Action, i: nat, j: nat)
    requires Initial(start) && Path(start, steps, a) && i < |a.landed| && j < |a.landed|
    ensures a.landed[i].ForApproval? && a.landed[j].ForApproval? ==> i == j && a.approvalKey == Some(a.landed[i].key)
    ensures a.landed[i].ForUndo? && a.landed[j].ForUndo? ==> i == j && a.undoKey == Some(a.landed[i].key)
    ensures a.landed[i].ForUndo? ==> a.wasApplied && exists k :: ForApproval(k) in a.landed
  {
    hide Path;
    StartIsSound(start);
    PathKeeps(start, steps, a);
    assert a.landed[i] in a.landed && a.landed[j] in a.landed;
    if a.landed[i].ForUndo? {
      assert a.landed[i] == ForUndo(a.landed[i].key);
      assert ForApproval(a.approvalKey.value) in a.landed;
    }
    if a.landed[i].ForApproval? && a.landed[j].ForApproval? {
      assert a.landed[i] == ForApproval(a.landed[i].key) && a.landed[j] == ForApproval(a.landed[j].key);
    }
    if a.landed[i].ForUndo? && a.landed[j].ForUndo? {
      assert a.landed[j] == ForUndo(a.landed[j].key);
    }
  }

  // A cancelled or superseded action never lands anything, whatever callers do
  // afterwards.
  lemma CancelledNeverLands(start: Action, before: seq<Step>, a: Action, more: seq<Step>, b: Action)
    requires Initial(start) && Path(start, before, a) && a.status.Cancelled? && Path(a, more, b)
    ensures b.status.Cancelled? && b.landed == []
  {
    hide Path;
    StartIsSound(start);
    PathKeeps(start, before, a);
    PathKeeps(a, more, b);
    NothingLanded(b);
  }

  lemma NothingLanded(a: Action)
    requires Sound(a) && a.approvalKey.None? && a.undoKey.None?
    ensures a.landed == []
  {
    assert a.landed == [] || a.landed[0] in a.landed;
    forall k ensures k !in a.landed {
      match k {
        case ForApproval(x) => assert x !in a.approving;
        case ForUndo(x) => assert x !in a.undoing;
      }
    }
  }

  lemma KeyFacts(a: Action, key: string)
    requires Sound(a)
    ensures key in a.approving ==> a.approvalKey == Some(key)
    ensures key in a.undoing ==> a.undoKey == Some(key) && a.wasApplied
    ensures key in a.approved ==> ForApproval(key) in a.landed
    ensures key in a.undone ==> ForUndo(key) in a.landed
    ensures ForUndo(key) in a.landed ==> !a.toolOnly
    ensures a.status.Applied? && a.approvalKey == Some(key) && !a.toolOnly ==> ForApproval(key) in a.landed
    ensures a.status.Undone? && a.undoKey == Some(key) ==> a.wasApplied && (!a.toolOnly ==> ForUndo(key) in a.landed)
  {
  }

  // Undone is reached only through applied.
  lemma UndoneWasApplied(start: Action, steps: seq<Step>, a: Action)
    requires Initial(start) && Path(start, steps, a) && (a.status.Undoing? || a.status.Undone?)
    ensures a.wasApplied
    ensures !a.toolOnly ==> exists k :: ForApproval(k) in a.landed
  {
    hide Path;
    StartIsSound(start);
    PathKeeps(start, steps, a);
    if !a.toolOnly {
      assert ForApproval(a.approvalKey.value) in a.landed;
    }
  }

  // Failed does not mean not applied: a second caller with the same key can be
  // told of an error that never undid the first caller's landing.
  lemma FailedCanHaveLanded(start: Action, key: string)
    requires Initial(start) && !start.toolOnly
    ensures exists steps, a :: Path(start, steps, a) && a.status.Failed? && ForApproval(key) in a.landed
  {
    var p, q, r := ClaimApproval(key, start.revision), LandCells(key, false), MarkFailed;
    var a1 := After(start, p);
    var a2 := After(a1, q);
    var a3 := After(a2, r);
    assert key in a2.approving;
    assert Path(a3, [], a3);
    assert [p, q, r][1..] == [q, r] && [q, r][1..] == [r] && [r][1..] == [];
    assert Path(a2, [r], a3) && Path(a1, [q, r], a3) && Path(start, [p, q, r], a3);
    assert a3.landed[0] == ForApproval(key);
  }

  // A claim lost once is lost for good: no later row is open to it.
  lemma LostClaimStaysLost(a: Action, steps: seq<Step>, b: Action, expected: int)
    requires Sound(a) && Path(a, steps, b) && !Open(a, expected)
    ensures !Open(b, expected)
  {
    hide Path, Sound;
    PathKeeps(a, steps, b);
  }

  // The revision a caller names with a claim, a cancellation or a rollback.
  function Named(step: Step): Option<int> {
    match step
    case ClaimApproval(_, expected) => Some(expected)
    case Cancel(expected) => Some(expected)
    case ClaimUndo(_, expected) => Some(expected)
    case RollBackToolOnly(_, expected) => Some(expected)
    case _ => None
  }

  // Such a step finds the row at the revision it names, planned or applied, and
  // leaves it one revision on.
  lemma NamedRevision(a: Action, step: Step)
    requires Enabled(a, step) && Named(step).Some?
    ensures a.revision == Named(step).value && After(a, step).revision == Named(step).value + 1
    ensures step.ClaimApproval? || step.Cancel? ==> a.status.Planned?
    ensures step.ClaimUndo? || step.RollBackToolOnly? ==> a.status.Applied?
  {
  }

  // And it is open exactly then: claims and cancellations to a planned row, undoing
  // and rolling back to an applied one.
  lemma NamedIsOpen(a: Action, key: string, expected: int)
    ensures Enabled(a, ClaimApproval(key, expected)) <==> a.status.Planned? && a.revision == expected
    ensures Enabled(a, Cancel(expected)) <==> a.status.Planned? && a.revision == expected
    ensures Enabled(a, ClaimUndo(key, expected)) <==> a.status.Applied? && a.revision == expected
    ensures Enabled(a, RollBackToolOnly(key, expected)) <==> a.status.Applied? && a.revision == expected && a.toolOnly
    ensures a.status.Planned? && a.revision == expected ==> After(a, Cancel(expected)).status.Cancelled?
    ensures a.status.Planned? ==> Enabled(a, Supersede) && After(a, Supersede).status.Cancelled?
  {
  }

  // So over every run a revision is named with success at most once.
  lemma RevisionNamedOnce(start: Action, before: seq<Step>, a: Action, step: Step, between: seq<Step>, b: Action, other: Step)
    requires Initial(start) && Path(start, before, a) && Enabled(a, step) && Path(After(a, step), between, b) && Enabled(b, other)
    requires Named(step).Some? && Named(other).Some?
    ensures Named(other).value > Named(step).value
  {
    hide Path, Sound, Enabled, After, Named;
    StartIsSound(start);
    PathKeeps(start, before, a);
    StepKeeps(a, step);
    PathKeeps(After(a, step), between, b);
    NamedRevision(a, step);
    NamedRevision(b, other);
  }

  lemma {:induction false} PathAppend(a: Action, first: seq<Step>, m: Action, second: seq<Step>, b: Action)
    requires Path(a, first, m) && Path(m, second, b)
    ensures Path(a, first + second, b)
    decreases |first|
  {
    hide Enabled, After;
    if first == [] {
      assert first + second == second;
    } else {
      assert (first + second)[1..] == first[1..] + second;
      PathAppend(After(a, first[0]), first[1..], m, second, b);
    }
  }

  // -------- the service's own methods, with other callers in between --------

  datatype Answer = Answered | Lost(committed: bool)

  datatype Outcome = Done | Replayed | RevisionConflict | VersionConflict | StoreError

  // What a call meets in a row nobody else touches meanwhile.
  datatype Case = AlreadyDone | Mine | Stale | NotOpen

  // Mine is a row open to this claim, or one this very key has claimed; `current`
  // says the workbook is at the version the plan was made for.
  function ApprovalCase(a: Action, key: string, expected: int, current: bool): Case {
    if a.status.Applied? && a.approvalKey == Some(key) then AlreadyDone
    else if Open(a, expected) then (if current then Mine else Stale)
    else if a.status.Applying? && a.approvalKey == Some(key) then Mine
    else NotOpen
  }

  // Only an undo of cells is remembered with its result.
  function UndoCase(a: Action, key: string, expected: int): Case {
    if a.status.Undone? && a.undoKey == Some(key) && !a.toolOnly then AlreadyDone
    else if (a.status.Applied? && a.revision == expected) || (a.status.Undoing? && a.undoKey == Some(key)) then Mine
    else NotOpen
  }

  // The store refuses to undo the cells of an action that has none.
  function UndoAnswer(a: Action, answer: Answer): Answer { if a.toolOnly then Lost(false) else answer }

  function Verdict(c: Case, answer: Answer): Outcome {
    match c
    case AlreadyDone => Replayed
    case NotOpen => RevisionConflict
    case Stale => VersionConflict
    case Mine => if answer.Answered? then Done else StoreError
  }

  lemma LaterTwice(a: Action, b: Action, c: Action)
    requires Later(a, b) && Later(b, c)
    ensures Later(a, c) && a.toolOnly == b.toolOnly == c.toolOnly
  {
  }

  lemma WasOpen(a: Action, b: Action, expected: int)
    requires Later(a, b)
    ensures Open(b, expected) ==> Open(a, expected)
    ensures a.toolOnly == b.toolOnly
  {
  }

  lemma WasApplied(a: Action, b: Action)
    requires Later(a, b)
    ensures b.status.Applied? ==> Rank(a.status) < 2 || (a.status.Applied? && a.revision == b.revision)
    ensures a.status.Applied? ==> Rank(b.status) >= 2
    ensures a.toolOnly == b.toolOnly
  {
  }

  class ActionRow {
    var row: Action
    ghost const start: Action
    ghost var history: seq<Step>

    ghost predicate Valid()
      reads this
    {
      Initial(start) && Path(start, history, row) && Sound(row)
    }

    constructor (planned: Action)
      requires Initial(planned)
      ensures Valid() && row == planned
    {
      row, start, history := planned, planned, [];
      new;
      StartIsSound(planned);
    }

    method Do(step: Step)
      requires Valid() && Enabled(row, step)
      modifies this
      ensures Valid() && row == After(old(row), step) && Later(old(row), row)
    {
      hide Sound;
      ghost var before := row;
      StepKeeps(row, step);
      row := After(row, step);
      assert [step][1..] == [] && Path(row, [], row);
      PathAppend(start, history, before, [step], row);
      history := history + [step];
    }

    // Other callers act: any of their steps that are enabled when they come.
    method Others(steps: seq<Step>)
      requires Valid()
      modifies this
      ensures Valid() && Later(old(row), row)
      ensures steps == [] ==> row == old(row)
    {
      var i := 0;
      while i < |steps|
        invariant Valid() && Later(old(row), row)
        invariant steps == [] ==> row == old(row)
      {
        if Enabled(row, steps[i]) { Do(steps[i]); }
        i := i + 1;
      }
    }

    // Approve.  `others` are what other callers do between its statements.  When
    // the claim is lost it calls itself again, and the termination measure says
    // that this happens at most once: the row is open to the claim at the first
    // call and never again after the claim is lost.
    method Approve(key: string, expected: int, current: bool, others: seq<seq<Step>>, answer: Answer) returns (r: Outcome)
      requires Valid() && !row.toolOnly
      modifies this
      ensures Valid() && Later(old(row), row)
      ensures r.Done? || r.Replayed? ==> row.approvalKey == Some(key) && ForApproval(key) in row.landed
      ensures others == [] ==> r == Verdict(ApprovalCase(old(row), key, expected, current), answer)
      ensures others == [] && (r.Replayed? || r.RevisionConflict? || r.VersionConflict?) ==> row == old(row)
      // A planned row at another revision is refused; at this one the workbook's
      // version and then the store decide.
      ensures others == [] && old(row).status.Planned? && old(row).revision != expected ==> r.RevisionConflict? && row == old(row)
      ensures others == [] && old(row).status.Planned? && old(row).revision == expected && !current ==> r.VersionConflict? && row == old(row)
      ensures others == [] && old(row).status.Planned? && old(row).revision == expected && current ==>
                && row.revision == expected + 1 && row.approvalKey == Some(key)
                && r == (if answer.Answered? then Done else StoreError) && row.status == (if answer.Answered? then Applied else Failed)
      // Under its own key an applied row answers again and a claimed one goes on;
      // nothing else is open.
      ensures others == [] && old(row).status.Applied? && old(row).approvalKey == Some(key) ==> r.Replayed?
      ensures others == [] && old(row).status.Applying? && old(row).approvalKey == Some(key) ==>
                r == (if answer.Answered? then Done else StoreError) && row.status == (if answer.Answered? then Applied else Failed)
      ensures others == [] && !old(row).status.Planned? && !((old(row).status.Applied? || old(row).status.Applying?) && old(row).approvalKey == Some(key))
              ==> r.RevisionConflict?
      decreases Open(row, expected)
    {
      hide Sound, Path, Initial, Later;
      Interrupt(others, 0);
      var seen := row;
      KeyFacts(seen, key);
      WasOpen(old(row), seen, expected);
      if seen.status.Applied? && seen.approvalKey == Some(key) { return Replayed; }
      if !seen.status.Planned? && !(seen.status.Applying? && seen.approvalKey == Some(key)) { return RevisionConflict; }
      if seen.status.Planned? && seen.revision != expected { return RevisionConflict; }
      if seen.status.Planned? {
        if !current { return VersionConflict; }
        Interrupt(others, 1);
        LaterTwice(old(row), seen, row);
        if !Open(row, expected) {
          ghost var lost := row;
          r := Approve(key, expected, current, if |others| > 2 then others[2..] else [], answer);
          LaterTwice(old(row), lost, row);
          return;
        }
      }
      ghost var found := row;
      r := TakeApproval(key, expected, if |others| > 2 then others[2] else [], answer);
      LaterTwice(old(row), found, row);
    }

    // The claim and what follows it.
    method TakeApproval(key: string, expected: int, others: seq<Step>, answer: Answer) returns (r: Outcome)
      requires Valid() && !row.toolOnly && ApprovalCase(row, key, expected, true).Mine?
      modifies this
      ensures Valid() && Later(old(row), row)
      ensures r.Done? || r.Replayed? ==> row.approvalKey == Some(key) && ForApproval(key) in row.landed
      ensures others == [] ==> r == (if answer.Answered? then Done else StoreError) && row.status == (if answer.Answered? then Applied else Failed)
      ensures others == [] && old(row).status.Planned? ==> row.revision == expected + 1
      ensures others == [] ==> row.approvalKey == Some(key)
    {
      hide Sound, Path, Initial;
      HoldApproval(key, expected);
      Others(others);
      r := Execute(key, answer);
    }

    // Claim a planned row, or take up a claim of this key again.
    method HoldApproval(key: string, expected: int)
      requires Valid() && !row.toolOnly && ApprovalCase(row, key, expected, true).Mine?
      modifies this
      ensures Valid() && Later(old(row), row)
      ensures row.status.Applying? && row.approvalKey == Some(key) && key in row.approving
      ensures row.revision == if old(row).status.Planned? then expected + 1 else old(row).revision
    {
      hide Sound, Path, Initial;
      if row.status.Planned? { Do(ClaimApproval(key, expected)); } else { Do(ResumeApproval(key)); }
    }

    // ApplyCells under the claimed key, then completeApproval or markFailed.
    method Execute(key: string, answer: Answer) returns (r: Outcome)
      requires Valid() && key in row.approving && !row.toolOnly
      modifies this
      ensures Valid() && Later(old(row), row)
      ensures r.Done? || r.Replayed? ==> row.approvalKey == Some(key) && ForApproval(key) in row.landed
      ensures old(row.status).Applying? ==> (r.Done? <==> answer.Answered?) && (r.StoreError? <==> answer.Lost?)
      ensures old(row.status).Applying? ==> row.status == if answer.Answered? then Applied else Failed
      ensures ForApproval(key) in row.landed <==> ForApproval(key) in old(row.landed) || answer != Lost(false)
      ensures row.revision == old(row.revision) && row.approvalKey == old(row.approvalKey)
    {
      hide Sound, Path, Initial;
      KeyFacts(row, key);
      var landed := ForApproval(key) in row.landed;
      if answer.Lost? {
        if answer.committed && !landed { Do(LandCells(key, false)); }
        if row.status.Applying? || row.status.Undoing? { Do(MarkFailed); }
        return StoreError;
      }
      if landed {
        Do(ReplayCells(key));
      } else {
        Do(LandCells(key, true));
      }
      if !row.status.Applying? { return RevisionConflict; }
      Do(CompleteApproval(key));
      r := Done;
    }

    // Undo, with the same shape: the lost claim recurses at most once.  An action
    // without cells is claimed too, and then fails.
    method Undo(key: string, expected: int, others: seq<seq<Step>>, answer: Answer) returns (r: Outcome)
      requires Valid()
      modifies this
      ensures Valid() && Later(old(row), row)
      ensures r.Done? || r.Replayed? ==> row.undoKey == Some(key) && ForUndo(key) in row.landed && row.wasApplied
      ensures others == [] ==> r == Verdict(UndoCase(old(row), key, expected), UndoAnswer(old(row), answer))
      ensures others == [] && (r.Replayed? || r.RevisionConflict?) ==> row == old(row)
      ensures others == [] && r.StoreError? ==> row.status.Failed?
      ensures row.toolOnly ==> !r.Done? && !r.Replayed?
      // Under its own key a claimed undo goes on and a finished one answers again.
      ensures others == [] && old(row).status.Undone? && old(row).undoKey == Some(key) && !row.toolOnly ==> r.Replayed?
      ensures others == [] && old(row).status.Undoing? && old(row).undoKey == Some(key) ==>
                && r == (if answer.Answered? && !row.toolOnly then Done else StoreError)
                && row.status == (if answer.Answered? && !row.toolOnly then Undone else Failed)
      // An applied row at another revision is refused; at this one it is claimed.
      ensures others == [] && old(row).status.Applied? && old(row).revision != expected ==> r.RevisionConflict? && row == old(row)
      ensures others == [] && old(row).status.Applied? && old(row).revision == expected ==>
                && row.revision == expected + 1 && row.undoKey == Some(key)
                && r == (if answer.Answered? && !row.toolOnly then Done else StoreError)
                && row.status == (if answer.Answered? && !row.toolOnly then Undone else Failed)
      decreases Rank(row.status) < 2 || (row.status.Applied? && row.revision == expected)
    {
      hide Sound, Path, Initial, Later;
      Interrupt(others, 0);
      var seen := row;
      KeyFacts(seen, key);
      WasApplied(old(row), seen);
      if seen.status.Undone? && seen.undoKey == Some(key) && !seen.toolOnly { return Replayed; }
      if !seen.status.Applied? && !(seen.status.Undoing? && seen.undoKey == Some(key)) { return RevisionConflict; }
      if seen.status.Applied? && seen.revision != expected { return RevisionConflict; }
      if seen.status.Applied? {
        Interrupt(others, 1);
        LaterTwice(old(row), seen, row);
        WasApplied(seen, row);
        if !(row.status.Applied? && row.revision == expected) {
          ghost var lost := row;
          r := Undo(key, expected, if |others| > 2 then others[2..] else [], answer);
          LaterTwice(old(row), lost, row);
          return;
        }
      }
      ghost var found := row;
      r := TakeUndo(key, expected, if |others| > 2 then others[2] else [], answer);
      LaterTwice(old(row), found, row);
      KeyFacts(row, key);
    }

    method TakeUndo(key: string, expected: int, others: seq<Step>, answer: Answer) returns (r: Outcome)
      requires Valid() && UndoCase(row, key, expected).Mine?
      modifies this
      ensures Valid() && Later(old(row), row)
      ensures r.Done? || r.Replayed? ==> row.undoKey == Some(key) && ForUndo(key) in row.landed && row.wasApplied
      ensures others == [] ==> r == (if answer.Answered? && !row.toolOnly then Done else StoreError)
      ensures others == [] ==> row.status == (if answer.Answered? && !row.toolOnly then Undone else Failed)
      ensures others == [] && old(row).status.Applied? ==> row.revision == expected + 1
      ensures others == [] ==> row.undoKey == Some(key)
    {
      hide Sound, Path, Initial;
      HoldUndo(key, expected);
      Others(others);
      r := ExecuteUndo(key, answer);
    }

    // Claim an applied row, or take up a claim of this key again.
    method HoldUndo(key: string, expected: int)
      requires Valid() && UndoCase(row, key, expected).Mine?
      modifies this
      ensures Valid() && Later(old(row), row)
      ensures row.status.Undoing? && row.undoKey == Some(key) && key in row.undoing
      ensures row.revision == if old(row).status.Applied? then expected + 1 else old(row).revision
    {
      hide Sound, Path, Initial;
      if row.status.Applied? { Do(ClaimUndo(key, expected)); } else { Do(ResumeUndo(key)); }
    }

    method ExecuteUndo(key: string, answer: Answer) returns (r: Outcome)
      requires Valid() && key in row.undoing
      modifies this
      ensures Valid() && Later(old(row), row)
      ensures r.Done? || r.Replayed? ==> row.undoKey == Some(key) && ForUndo(key) in row.landed && row.wasApplied
      ensures old(row.status).Undoing? ==> (r.Done? <==> UndoAnswer(row, answer).Answered?) && (r.StoreError? <==> UndoAnswer(row, answer).Lost?)
      ensures old(row.status).Undoing? ==> row.status == if UndoAnswer(row, answer).Answered? then Undone else Failed
      ensures ForUndo(key) in row.landed <==> ForUndo(key) in old(row.landed) || UndoAnswer(row, answer) != Lost(false)
      ensures row.revision == old(row.revision) && row.undoKey == old(row.undoKey) && row.toolOnly == old(row.toolOnly)
    {
      hide Sound, Path, Initial;
      KeyFacts(row, key);
      var landed := ForUndo(key) in row.landed;
      var told := UndoAnswer(row, answer);
      if told.Lost? {
        if told.committed && !landed { Do(LandUndo(key, false)); }
        if row.status.Applying? || row.status.Undoing? { Do(MarkFailed); }
        return StoreError;
      }
      if landed {
        Do(ReplayUndo(key));
      } else {
        Do(LandUndo(key, true));
      }
      if !row.status.Undoing? { return RevisionConflict; }
      Do(CompleteUndo(key));
      r := Done;
    }

    method Interrupt(others: seq<seq<Step>>, i: nat)
      requires Valid()
      modifies this
      ensures Valid() && Later(old(row), row)
      ensures others == [] ==> row == old(row)
    {
      if i < |others| { Others(others[i]); }
    }
  }
}
