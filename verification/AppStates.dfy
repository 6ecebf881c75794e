/**
 * The application state as the object that the reducer changes step by step. Each handler is proved against the
 * function on values that says what it does, and keeps the object valid: numbers and durability agree, the history
 * cursors fit, and the counters cover every number in sight. The laws about steps are then ensured by the one method
 * that takes an action.
 */
module AppStates {
  import opened Options
  import opened AttachmentNumbering
  import opened SessionBoards
  import opened Reducer
  import opened Durability
  import opened Locks
  import opened Staging
  import Ordinals
  import U = Undo

  // ---------------------------------------------------------------------------------------------
  // What every action keeps

  /** Numbers and durability agree, the history cursors fit, and the counters cover every number in sight. */
  ghost predicate Healthy(s: State) { Inv(s) && U.CursorsFit(s) && Ordinals.Dominated(s) }

  lemma InitialIsHealthy(board: Board)
    requires Covered(board)
    ensures Healthy(Initial(board))
  {
    InitialIsSound(board);
  }

  lemma SoundAfter(s: State, o: Outcome)
    requires Inv(s) && (Quiet(s, o) || Sends(s, o) || Stages(s, o) || Reports(s, o))
    ensures Inv(o.state)
  {
    if Sends(s, o) || Stages(s, o) { ExtendedIsSound(LedgerOf(s)); }
  }

  lemma PerformedIsHealthy(s: State, plan: Plan, refused: bool)
    requires Healthy(s)
    ensures Healthy(Performed(s, plan, refused).state)
  {
    PerformedLedger(s, plan, refused);
    SoundAfter(s, Performed(s, plan, refused));
    U.PerformedFits(s, plan, refused);
    Ordinals.PerformedRises(s, plan, refused);
  }

  lemma EditedIsHealthy(s: State, edit: Rewrite, refused: bool)
    requires Healthy(s)
    ensures Healthy(Edited(s, edit, refused).state)
  {
    EditedLedger(s, edit, refused);
    SoundAfter(s, Edited(s, edit, refused));
    U.EditedFits(s, edit, refused);
    Ordinals.EditedRises(s, edit, refused);
  }

  lemma HistoryIsHealthy(s: State, scope: Scope, undo: bool, refused: bool)
    requires Healthy(s)
    ensures Healthy(HistoryMoved(s, scope, undo, refused).state)
  {
    HistoryLedger(s, scope, undo, refused);
    SoundAfter(s, HistoryMoved(s, scope, undo, refused));
    U.HistoryFits(s, scope, undo, refused);
    Ordinals.HistoryRises(s, scope, undo, refused);
  }

  lemma StagedIsHealthy(s: State, ids: seq<ThoughtId>, at: Timestamp)
    requires Healthy(s)
    ensures Healthy(StagedRemoval(s, ids, at).state)
  {
    StagedLedger(s, ids, at);
    SoundAfter(s, StagedRemoval(s, ids, at));
  }

  lemma ClipboardIsHealthy(s: State, request: RequestId, written: bool, refused: bool)
    requires Healthy(s)
    ensures Healthy(ClipboardFinished(s, request, written, refused).state)
  {
    ClipboardLedger(s, request, written, refused);
    SoundAfter(s, ClipboardFinished(s, request, written, refused));
    U.ClipboardFits(s, request, written, refused);
    Ordinals.ClipboardRises(s, request, written, refused);
  }

  lemma PersistenceIsHealthy(s: State, action: Action, refused: bool)
    requires Healthy(s) && Persists(action)
    ensures Healthy(Persistence(s, action, refused).state)
  {
    PersistenceIsSound(s, action, refused);
    U.PersistenceFits(s, action, refused);
    Ordinals.PersistenceRises(s, action, refused);
  }

  lemma PersistenceIsSound(s: State, action: Action, refused: bool)
    requires Inv(s) && Persists(action)
    ensures Inv(Persistence(s, action, refused).state)
  {
    if action.PersistenceCommitted? {
      CommittedLedger(s, action.sequence, refused);
      if s.pending != [] { ShortenedIsSound(LedgerOf(s)); }
    } else {
      TroubleLedger(s, action, refused);
      SoundAfter(s, Persistence(s, action, refused));
    }
  }

  lemma CapturedIsHealthy(s: State, operation: Operation, refused: bool)
    requires Healthy(s) && Captured(s, operation, refused).Some?
    ensures Healthy(Captured(s, operation, refused).value)
  {
    GoodShot(s, operation, refused);
    U.ShotFits(s, operation, refused);
    Ordinals.StepRises(s, Shot(operation, refused));
  }

  lemma CaptureGuarantees(s: State, operation: Operation, refused: bool)
    requires Healthy(s)
    ensures var captured := Captured(s, operation, refused);
            var t := if captured.Some? then captured.value else s;
            && Healthy(t) && GoodStep(s, Shot(operation, refused), Outcome(t, captured.Some?, []))
            && forall id :: id in s.locked ==> Protected(s, t, id)
  {
    GoodShot(s, operation, refused);
    if Captured(s, operation, refused).Some? { CapturedIsHealthy(s, operation, refused); }
    forall id | id in s.locked
      ensures Protected(s, Step(s, Shot(operation, refused)).state, id)
    {
      ShotProtects(s, operation, refused, id);
    }
  }

  /** What one action guarantees, with its outcome given a name. */
  lemma ReduceGuarantees(s: State, action: Action, refused: bool, o: Outcome)
    requires Healthy(s) && o == Reduce(s, action, refused)
    ensures Healthy(o.state)
    ensures GoodStep(s, Act(action, refused), o)
    ensures Frozen(s) && (action.PersistenceCommitted? ==> action.sequence !in s.deferred) ==> Stands(s, o.state)
    ensures forall id :: id in s.locked && !Releases(action, id) ==> Shielded(s, action, o.state, id)
  {
    GoodReduce(s, action, refused);
    U.ReduceFits(s, action, refused);
    Ordinals.StepRises(s, Act(action, refused));
    if Frozen(s) && (action.PersistenceCommitted? ==> action.sequence !in s.deferred) {
      FrozenWhileStagedOrFailed(s, action, refused);
    }
    forall id | id in s.locked && !Releases(action, id)
      ensures Shielded(s, action, o.state, id)
    {
      LockedThoughtsAreProtected(s, action, refused, id);
    }
  }

  class AppState {
    var board: Board
    var history: seq<Operation>
    var cursor: nat
    var editors: map<ThoughtId, EditorHistory>
    var clipboard: map<RequestId, PendingClipboard>
    var locked: set<ThoughtId>
    var pending: seq<nat>
    var deferred: map<nat, Operation>
    var highest: nat
    var durability: Reducer.Durability

    /** Holds between actions. The steps within an action, which follow here first, may break it for a while. */
    ghost predicate Valid()
      reads this
    {
      Healthy(View())
    }

    function View(): State
      reads this
    {
      State(board, history, cursor, editors, clipboard, locked, pending, deferred, highest, durability)
    }

    constructor (board: Board)
      ensures View() == Initial(board) && (Covered(board) ==> Valid())
    {
      this.board, history, cursor, editors := board, [], 0, map[];
      clipboard, locked, pending, deferred := map[], {}, [], map[];
      highest, durability := board.lastDurable, Settled(board.lastDurable);
      new;
      if Covered(board) { InitialIsHealthy(board); }
    }

    // -------------------------------------------------------------------------------------------
    // Sequences and durability

    method RefreshDurability()
      modifies this`durability
      ensures View() == Refreshed(old(View()))
    {
      if durability.Failed? && durability.failed in pending { return; }
      durability := if pending == [] then Settled(board.lastDurable)
                    else Outstanding(board.lastDurable, pending[|pending| - 1]);
      assert durability == Review(old(durability), pending, board.lastDurable);
    }

    method TrackPending(sequence: nat)
      modifies this`highest, this`pending, this`durability
      ensures View() == Tracked(old(View()), sequence)
    {
      highest := sequence;
      pending := pending + [sequence];
      RefreshDurability();
    }

    /** The board after the operation, on a copy; then the history. */
    method EnterOperation(operation: Operation, refused: bool) returns (ok: bool)
      modifies this`board, this`history, this`cursor
      ensures ok == Entered(old(View()), operation, refused).Some?
      ensures View() == if ok then Entered(old(View()), operation, refused).value else old(View())
    {
      if refused { return false; }
      var candidate := new SessionBoard(board);
      ok := candidate.Apply(operation.forward);
      if !ok { return; }
      board := candidate.View();
      history := Take(history, cursor) + [operation];
      cursor := cursor + 1;
    }

    method RecordBoardOperation(operation: Operation, refused: bool) returns (ok: bool)
      modifies this
      ensures ok == Recorded(old(View()), operation, refused).Some?
      ensures View() == if ok then Recorded(old(View()), operation, refused).value else old(View())
    {
      ok := EnterOperation(operation, refused);
      if ok { TrackPending(operation.sequence); }
    }

    method StageBoardOperation(operation: Operation) returns (ok: bool)
      modifies this
      ensures ok == Staged(old(View()), operation).Some?
      ensures View() == if ok then Staged(old(View()), operation).value else old(View())
    {
      ok := NextSequence(View()) == Some(operation.sequence);
      if !ok { return; }
      TrackPending(operation.sequence);
      deferred := deferred[operation.sequence := operation];
    }

    method CommitDeferredBoardOperation(sequence: nat, refused: bool) returns (ok: bool)
      modifies this
      ensures ok == CommittedDeferred(old(View()), sequence, refused).Some?
      ensures View() == if ok then CommittedDeferred(old(View()), sequence, refused).value else old(View())
    {
      if sequence !in deferred { return true; }
      ok := EnterOperation(deferred[sequence], refused);
      if ok { deferred := deferred - {sequence}; }
    }

    /** A screenshot that storage has accepted: the next number becomes durable without ever being pending. */
    method ApplyDurableCapture(operation: Operation, refused: bool) returns (ok: bool)
      requires Valid()
      modifies this
      ensures Valid()
      ensures ok == Captured(old(View()), operation, refused).Some?
      ensures View() == if ok then Captured(old(View()), operation, refused).value else old(View())
      ensures GoodStep(old(View()), Shot(operation, refused), Outcome(View(), ok, []))
      ensures forall id :: id in old(locked) ==> Protected(old(View()), View(), id)
    {
      CaptureGuarantees(View(), operation, refused);
      ok := operation.forward.AddThought? && operation.inverse.SetDeletion?
            && NextSequence(View()) == Some(operation.sequence);
      if !ok { return; }
      ok := EnterOperation(operation, refused);
      if !ok { return; }
      board := board.(lastDurable := operation.sequence);
      highest := operation.sequence;
      RefreshDurability();
    }

    method Acknowledge(sequence: nat, refused: bool) returns (ok: bool)
      modifies this
      ensures Outcome(View(), ok, []) == Acknowledged(old(View()), sequence, refused)
    {
      ok := pending != [] && pending[0] == sequence;
      if !ok { return; }
      ok := CommitDeferredBoardOperation(sequence, refused);
      if !ok { return; }
      pending := pending[1..];
      board := board.(lastDurable := if board.lastDurable < sequence then sequence else board.lastDurable);
      RefreshDurability();
    }

    method ShowFailure(sequence: nat, code: Code) returns (ok: bool, effects: seq<Effect>)
      modifies this`durability
      ensures Outcome(View(), ok, effects) == FailureShown(old(View()), sequence, code)
    {
      if sequence !in pending { return false, []; }
      var failed := if durability.Failed? && durability.failed < sequence then durability.failed else sequence;
      durability := Failed(board.lastDurable, failed, code);
      ok, effects := true, [Notify];
    }

    method Retry(sequence: nat) returns (ok: bool, effects: seq<Effect>)
      modifies this`durability
      ensures Outcome(View(), ok, effects) == Retried(old(View()), sequence)
    {
      ok, effects := durability.Failed? && durability.code != RecoveryCapacity && durability.failed == sequence
                     && sequence in pending, [];
      if !ok { return; }
      durability := Outstanding(board.lastDurable, pending[|pending| - 1]);
      effects := [RetryStorage(sequence)];
    }

    method ReducePersistence(action: Action, refused: bool) returns (ok: bool, effects: seq<Effect>)
      requires Valid() && Persists(action)
      modifies this
      ensures Valid()
      ensures Outcome(View(), ok, effects) == Persistence(old(View()), action, refused)
    {
      PersistenceIsHealthy(View(), action, refused);
      if action.PersistenceCommitted? {
        effects := [];
        ok := Acknowledge(action.sequence, refused);
      } else if action.PersistenceFailed? {
        ok, effects := ShowFailure(action.sequence, action.code);
      } else {
        ok, effects := Retry(action.sequence);
      }
    }

    // -------------------------------------------------------------------------------------------
    // Locks

    method AnyLocked(ids: seq<ThoughtId>) returns (found: bool)
      ensures found <==> exists i :: 0 <= i < |ids| && ids[i] in locked
    {
      for i := 0 to |ids|
        invariant forall k :: 0 <= k < i ==> ids[k] !in locked
      {
        if ids[i] in locked { return true; }
      }
      found := false;
    }

    /** Whether a mutation, or one inside a batch, addresses a locked thought. */
    method LockedMutation(mutation: Mutation) returns (found: bool)
      ensures found <==> exists id :: id in locked && Addresses(mutation, id)
      decreases mutation
    {
      if mutation.Batch? {
        for i := 0 to |mutation.mutations|
          invariant forall k, id :: 0 <= k < i && id in locked ==> !Addresses(mutation.mutations[k], id)
        {
          found := LockedMutation(mutation.mutations[i]);
          if found { return; }
        }
        found := false;
      } else {
        found := !mutation.ChangeSeparator? && mutation.id in locked;
      }
    }

    method LockedReplay(undo: bool) returns (found: bool)
      ensures found == ReplayLocked(View(), undo)
    {
      var operation := NextOperation(View(), undo);
      if operation.None? { return false; }
      found := LockedMutation(ReplayOf(operation.value, undo));
    }

    method EnsureActionUnlocked(action: Action) returns (stop: bool)
      ensures stop == LockedOut(View(), action)
    {
      stop := AnyLocked(Guarded(action));
      if stop { return; }
      if action.Undo? && action.scope.BoardScope? {
        stop := LockedReplay(true);
      } else if action.Redo? && action.scope.BoardScope? {
        stop := LockedReplay(false);
      }
    }

    /** Locks all of the thoughts or none. */
    method Lock(ids: seq<ThoughtId>) returns (ok: bool)
      modifies this`locked
      ensures Outcome(View(), ok, []) == Transition(old(View()), BeginSubmission(ids))
    {
      if ids == [] { return false; }
      for i := 0 to |ids|
        invariant forall k :: 0 <= k < i ==> LiveAt(board.thoughts, ids[k]) && ids[k] !in locked
      {
        if !LiveAt(board.thoughts, ids[i]) || ids[i] in locked { return false; }
      }
      locked := locked + set id | id in ids;
      ok := true;
    }

    method Release(ids: seq<ThoughtId>)
      modifies this`locked
      ensures Outcome(View(), true, []) == Transition(old(View()), EndSubmission(ids))
    {
      for i := 0 to |ids|
        invariant locked == old(locked) - set id | id in ids[..i]
      {
        assert ids[..i + 1] == ids[..i] + [ids[i]];
        locked := locked - {ids[i]};
      }
      assert ids[..|ids|] == ids;
    }

    method LockTransition(action: Action) returns (ok: bool)
      requires Valid() && OnLocks(action)
      modifies this`locked
      ensures Valid()
      ensures Outcome(View(), ok, []) == Transition(old(View()), action)
    {
      if action.BeginSubmission? {
        ok := Lock(action.ids);
      } else {
        ok := true;
        Release(action.ids);
      }
    }

    // -------------------------------------------------------------------------------------------
    // Board operations and edits

    /** Records a planned operation under the next sequence. */
    method Perform(plan: Plan, refused: bool) returns (ok: bool, effects: seq<Effect>)
      requires Valid()
      modifies this
      ensures Valid()
      ensures Outcome(View(), ok, effects) == Performed(old(View()), plan, refused)
    {
      PerformedIsHealthy(View(), plan, refused);
      effects := [];
      if plan.Refuse? { return false, []; }
      if plan.Nothing? { return true, []; }
      var sequence := NextSequence(View());
      if sequence.None? { return false, []; }
      if plan.TrackOnly? {
        TrackPending(sequence.value);
      } else {
        ok := RecordBoardOperation(Operation(sequence.value, Batch(plan.forward), Batch(plan.inverse)), refused);
        if !ok { return; }
        editors := Settle(editors, plan.edited);
      }
      ok, effects := true, [Commit(sequence.value)];
    }

    /** Renews new attachments in a copy of the annotations and numbers them. */
    method NumberEdit(edit: Rewrite) returns (annotations: Option<seq<Annotation>>)
      ensures var allotted := Allotted(board.counters, EditRenewal(edit));
              annotations == if allotted.None? then None else Some(allotted.value.1)
    {
      var after := edit.afterAnnotations;
      var items := new Annotation[|after|](i requires 0 <= i < |after| => after[i]);
      for i := 0 to |after|
        invariant forall k :: 0 <= k < |after| ==> items[k] == if k < i then EditRenewal(edit)[k] else after[k]
      {
        if items[i].kind.Attachment?
           && !(exists k :: 0 <= k < |edit.beforeAnnotations| && edit.beforeAnnotations[k].kind == items[i].kind)
        {
          items[i] := Renewed(items[i]);
        }
      }
      assert items[..] == EditRenewal(edit);
      var counters := new AttachmentCounters(board.counters.image, board.counters.file);
      var ok := counters.Assign(items);
      annotations := if ok then Some(items[..]) else None;
    }

    method EditThought(edit: Rewrite, refused: bool) returns (ok: bool, effects: seq<Effect>)
      requires Valid()
      modifies this
      ensures Valid()
      ensures Outcome(View(), ok, effects) == Edited(old(View()), edit, refused)
    {
      EditedIsHealthy(View(), edit, refused);
      if !Applies(board.thoughts, edit) || refused { return false, []; }
      if !IsChange(edit) { return true, []; }
      ok, effects := ChangeThought(edit);
    }

    method ChangeThought(edit: Rewrite) returns (ok: bool, effects: seq<Effect>)
      requires Applies(board.thoughts, edit) && IsChange(edit)
      modifies this
      ensures Outcome(View(), ok, effects) == Edited(old(View()), edit, false)
    {
      ok := EnterEdit(edit);
      if !ok { return false, []; }
      TrackPending(highest + 1);
      effects := [Commit(highest)];
    }

    /** Everything about an edit but its sequence. */
    method EnterEdit(edit: Rewrite) returns (ok: bool)
      requires Applies(board.thoughts, edit)
      modifies this`board, this`history, this`editors
      ensures ok == Unnumbered(old(View()), edit).Some?
      ensures View() == if ok then Unnumbered(old(View()), edit).value else old(View())
    {
      var annotations := NumberEdit(edit);
      var sequence := NextSequence(View());
      if annotations.None? || sequence.None? { return false; }
      ok := ReplaceEdited(edit, annotations.value);
      if !ok { return; }
      PushRevision(edit.id, Revision(sequence.value, edit.beforeContent, edit.afterContent, edit.beforeAnnotations,
                                     annotations.value));
    }

    /** The revision replaces what could be redone, in the editor and, for this thought, on the board. */
    method PushRevision(id: ThoughtId, revision: Revision)
      modifies this`history, this`editors
      ensures history == Take(old(history), RedoKept(old(history), cursor, id))
      ensures var editor := EditorOf(old(View()), id);
              editors == old(editors)[id := EditorHistory(Take(editor.revisions, editor.cursor) + [revision],
                                                          editor.cursor + 1)]
    {
      history := Take(history, RedoKept(history, cursor, id));
      var editor := if id in editors then editors[id] else EditorHistory([], 0);
      editors := editors[id := EditorHistory(Take(editor.revisions, editor.cursor) + [revision], editor.cursor + 1)];
    }

    /** Puts the edited text into a copy of the board, which must pass validation. */
    method ReplaceEdited(edit: Rewrite, annotations: seq<Annotation>) returns (ok: bool)
      requires Applies(board.thoughts, edit)
      modifies this`board
      ensures var thought := Lookup(old(board).thoughts, edit.id).value
                               .(content := edit.afterContent, annotations := annotations);
              var after := Checked(old(board).counters, Put(old(board).thoughts, edit.id, thought),
                                   old(board).lastDurable);
              ok == after.Some? && board == if ok then after.value else old(board)
    {
      var candidate := new SessionBoard(board);
      var thought := Lookup(board.thoughts, edit.id).value.(content := edit.afterContent, annotations := annotations);
      candidate.thoughts := Put(board.thoughts, edit.id, thought);
      ok := candidate.ObserveAttachments();
      if !ok { return; }
      ok := candidate.Validate();
      if !ok { return; }
      board := candidate.View();
    }

    // -------------------------------------------------------------------------------------------
    // History

    method MoveBoardHistory(undo: bool) returns (ok: bool)
      modifies this`board, this`cursor
      ensures ok == MovedBoard(old(View()), undo).Some?
      ensures View() == if ok then MovedBoard(old(View()), undo).value else old(View())
    {
      var operation := NextOperation(View(), undo);
      if operation.None? { return false; }
      var candidate := new SessionBoard(board);
      ok := candidate.Apply(ReplayOf(operation.value, undo));
      if !ok { return; }
      board := candidate.View();
      cursor := if undo then cursor - 1 else cursor + 1;
    }

    method MoveEditorHistory(id: ThoughtId, undo: bool) returns (ok: bool)
      modifies this`board, this`editors
      ensures ok == MovedEditor(old(View()), id, undo).Some?
      ensures View() == if ok then MovedEditor(old(View()), id, undo).value else old(View())
    {
      if id !in editors { return false; }
      var editor := editors[id];
      var next := NextRevision(editor, undo);
      if next.None? { return false; }
      var r := next.value;
      ok := if undo then Matches(board.thoughts, id, r.afterContent, r.afterAnnotations)
            else Matches(board.thoughts, id, r.beforeContent, r.beforeAnnotations);
      if !ok { return; }
      var found := Lookup(board.thoughts, id).value;
      var thought := if undo then found.(content := r.beforeContent, annotations := r.beforeAnnotations)
                     else found.(content := r.afterContent, annotations := r.afterAnnotations);
      board := board.(thoughts := Put(board.thoughts, id, thought));
      editors := editors[id := editor.(cursor := if undo then editor.cursor - 1 else editor.cursor + 1)];
    }

    method HistoryMove(scope: Scope, undo: bool, refused: bool) returns (ok: bool, effects: seq<Effect>)
      requires Valid()
      modifies this
      ensures Valid()
      ensures Outcome(View(), ok, effects) == HistoryMoved(old(View()), scope, undo, refused)
    {
      HistoryIsHealthy(View(), scope, undo, refused);
      effects := [];
      var sequence := NextSequence(View());
      if refused || sequence.None? { return false, []; }
      if scope.BoardScope? {
        ok := MoveBoardHistory(undo);
      } else {
        ok := MoveEditorHistory(scope.id, undo);
      }
      if !ok { return; }
      TrackPending(sequence.value);
      effects := [Commit(sequence.value)];
    }

    method StageSubmissionRemoval(ids: seq<ThoughtId>, at: Timestamp) returns (ok: bool, effects: seq<Effect>)
      requires Valid()
      modifies this
      ensures Valid()
      ensures Outcome(View(), ok, effects) == StagedRemoval(old(View()), ids, at)
    {
      StagedIsHealthy(View(), ids, at);
      effects := [];
      for i := 0 to |ids|
        invariant forall k :: 0 <= k < i ==> ids[k] in locked
      {
        if ids[i] !in locked { return false, []; }
      }
      var sequence := NextSequence(View());
      ok := Selectable(board.thoughts, ids) && sequence.Some?;
      if !ok { return; }
      var forward, inverse := Deletions(ids, Some(at)), Deletions(ids, None);
      ok := StageBoardOperation(Operation(sequence.value, Batch(forward), Batch(inverse)));
      if ok { effects := [Commit(sequence.value)]; }
    }

    // -------------------------------------------------------------------------------------------
    // Clipboard

    method RequestClipboard(request: RequestId, ids: seq<ThoughtId>, cut: bool, at: Timestamp)
      returns (ok: bool, effects: seq<Effect>)
      requires Valid()
      modifies this`clipboard
      ensures Valid()
      ensures Outcome(View(), ok, effects) == ClipboardRequested(old(View()), request, ids, cut, at)
    {
      effects := [];
      ok := Selectable(board.thoughts, ids);
      if !ok { return; }
      var sources: seq<Source> := [];
      for i := 0 to |ids|
        invariant |sources| == i && forall k :: 0 <= k < i ==> sources[k] == SourceOf(board.thoughts, ids[k])
      {
        sources := sources + [SourceOf(board.thoughts, ids[i])];
      }
      assert sources == SourcesOf(board.thoughts, ids);
      if request !in clipboard {
        clipboard := clipboard[request := PendingClipboard(sources, cut, at)];
      }
      effects := [WriteClipboard(request)];
    }

    method FinishClipboard(request: RequestId, written: bool, refused: bool) returns (ok: bool, effects: seq<Effect>)
      requires Valid()
      modifies this
      ensures Valid()
      ensures Outcome(View(), ok, effects) == ClipboardFinished(old(View()), request, written, refused)
    {
      ClipboardIsHealthy(View(), request, written, refused);
      ok, effects := true, [];
      if request !in clipboard { return; }
      var entry := clipboard[request];
      clipboard := clipboard - {request};
      if !written { return true, [Notify]; }
      if !entry.cut { return; }
      if !SourcesMatch(board.thoughts, entry.sources) { return true, [Notify]; }
      var ids := SourceIds(entry.sources);
      var found := AnyLocked(ids);
      if found {
        assert exists i :: 0 <= i < |entry.sources| && entry.sources[i].id in locked;
        return false, [];
      }
      assert forall i :: 0 <= i < |entry.sources| ==> entry.sources[i].id == ids[i];
      ok, effects := Perform(PlanOf(board, Delete(ids, entry.at)), refused);
    }

    // -------------------------------------------------------------------------------------------
    // Routing

    /**
     * One action. Besides computing the reducer's outcome it keeps the object valid, moves the numbers by one good
     * step, changes nothing but durability while frozen, and leaves locked thoughts alone.
     */
    method Reduce(action: Action, refused: bool) returns (ok: bool, effects: seq<Effect>)
      requires Valid()
      modifies this
      ensures Valid()
      ensures Outcome(View(), ok, effects) == Reducer.Reduce(old(View()), action, refused)
      ensures GoodStep(old(View()), Act(action, refused), Outcome(View(), ok, effects))
      ensures old(Frozen(View())) && (action.PersistenceCommitted? ==> action.sequence !in old(deferred)) ==>
                Stands(old(View()), View())
      ensures forall id :: id in old(locked) && !Releases(action, id) ==> Shielded(old(View()), action, View(), id)
    {
      ghost var s := View();
      ok, effects := Route(action, refused);
      ReduceGuarantees(s, action, refused, Outcome(View(), ok, effects));
    }

    /** A locked thought stops an action, and a storage failure every action that starts a durable change. */
    method Guard(action: Action) returns (stop: bool)
      ensures stop == Stopped(View(), action)
    {
      stop := EnsureActionUnlocked(action);
      stop := stop || (durability.Failed? && Mutates(action));
    }

    /** The guards, then the handler. */
    method Route(action: Action, refused: bool) returns (ok: bool, effects: seq<Effect>)
      requires Valid()
      modifies this
      ensures Outcome(View(), ok, effects) == Reducer.Reduce(old(View()), action, refused)
    {
      var stop := Guard(action);
      if stop { return false, []; }
      if Plans(action) {
        ok, effects := Perform(PlanOf(board, action), refused);
      } else if Persists(action) {
        ok, effects := ReducePersistence(action, refused);
      } else {
        ok, effects := Handle(action, refused);
      }
    }

    method Handle(action: Action, refused: bool) returns (ok: bool, effects: seq<Effect>)
      requires Valid() && !Plans(action) && !Persists(action)
      modifies this
      ensures Outcome(View(), ok, effects) == Handled(old(View()), action, refused)
    {
      if action.Undo? || action.Redo? {
        ok, effects := HistoryMove(action.scope, action.Undo?, refused);
      } else if action.Edit? {
        ok, effects := EditThought(action.edit, refused);
      } else if action.StageRemoval? {
        ok, effects := StageSubmissionRemoval(action.ids, action.at);
      } else if action.BeginSubmission? || action.EndSubmission? {
        effects := [];
        ok := LockTransition(action);
      } else if action.Navigate? || action.RenameSession? {
        ok, effects := true, if action.RenameSession? && action.changed then [CommitMetadata] else [];
      } else if action.ClipboardResult? {
        ok, effects := FinishClipboard(action.request, action.written && !durability.Failed?, refused);
      } else {
        ok, effects := RequestClipboard(action.request, action.ids, action.Cut?, if action.Cut? then action.at else 0);
      }
    }
  }
}
