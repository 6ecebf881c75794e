/** What edits, locks, staged removals, receipts and retries do, and exactly when they are accepted. */
module Handlers {
  import opened Options
  import opened AttachmentNumbering
  import opened SessionBoards
  import opened Reducer
  import opened Durability
  import opened Ordinals
  import opened ValidBoards
  import opened Effects
  import G = Staging
  import U = Undo

  // ---------------------------------------------------------------------------------------------
  // Edits

  /** The annotations an edit gets: attachments that the old text did not have get new numbers. */
  function EditedAnnotations(board: Board, edit: Rewrite): seq<Annotation> {
    AllNumbered(board.counters, EditRenewal(edit))
  }

  predicate WasThere(edit: Rewrite, annotation: Annotation) {
    exists k :: 0 <= k < |edit.beforeAnnotations| && edit.beforeAnnotations[k].kind == annotation.kind
  }

  /** Whatever is no attachment, and every attachment of the old text, is kept; any other gets a new number. */
  lemma EditsNumberNewAttachments(board: Board, edit: Rewrite)
    requires Valid(board.thoughts) && Applies(board.thoughts, edit)
    ensures var annotations, end := EditedAnnotations(board, edit),
                                    Advanced(board.counters, EditRenewal(edit), |EditRenewal(edit)|);
            && |annotations| == |edit.afterAnnotations| && AllAssigned(annotations)
            && forall i :: 0 <= i < |annotations| ==>
                 var asked := edit.afterAnnotations[i];
                 if asked.kind.Presentational? || WasThere(edit, asked) then annotations[i] == asked
                 else IsNew(board.counters, end, asked, annotations[i])
  {
    NewNumbersAreFresh(board.counters, EditRenewal(edit));
    var p := PlaceOf(board.thoughts, edit.id);
    forall i | 0 <= i < |edit.afterAnnotations| && WasThere(edit, edit.afterAnnotations[i])
      ensures !Unassigned(edit.afterAnnotations[i])
    {
      var k :| 0 <= k < |edit.beforeAnnotations| && edit.beforeAnnotations[k].kind == edit.afterAnnotations[i].kind;
      assert !Unassigned(board.thoughts[p].thought.annotations[k]);
    }
  }

  predicate EditGoesThrough(s: State, edit: Rewrite, refused: bool) {
    Applies(s.board.thoughts, edit) && !refused &&
    (IsChange(edit) ==>
       SequenceLeft(s) && Allotted(s.board.counters, EditRenewal(edit)).Some? &&
       Fits(s.board.thoughts, edit.id, EditedAnnotations(s.board, edit)))
  }

  /** The text is replaced under the next sequence, and the editor's next undo leads back. */
  ghost predicate EditedAsAsked(s: State, edit: Rewrite, o: Outcome) {
    var annotations := EditedAnnotations(s.board, edit);
    var editor := EditorOf(o.state, edit.id);
    && Only(s.board.thoughts, o.state.board.thoughts, [edit.id])
    && Reads(s.board.thoughts, o.state.board.thoughts, edit.id, edit.afterContent, annotations)
    && o.effects == [Commit(s.highest + 1)] && o.state.highest == s.highest + 1
    && (EditorOf(s, edit.id).cursor <= |EditorOf(s, edit.id).revisions| ==>
          editor.cursor == |editor.revisions| == EditorOf(s, edit.id).cursor + 1 &&
          editor.revisions[editor.cursor - 1] ==
          Revision(s.highest + 1, edit.beforeContent, edit.afterContent, edit.beforeAnnotations, annotations))
  }

  lemma CheckedIfFits(board: Board, edit: Rewrite)
    requires Valid(board.thoughts) && Applies(board.thoughts, edit)
    ensures var thought := Lookup(board.thoughts, edit.id).value
                             .(content := edit.afterContent, annotations := EditedAnnotations(board, edit));
            var after := Put(board.thoughts, edit.id, thought);
            && (Checked(board.counters, after, board.lastDurable).Some? <==>
                Fits(board.thoughts, edit.id, EditedAnnotations(board, edit)))
            && Only(board.thoughts, after, [edit.id])
            && Reads(board.thoughts, after, edit.id, edit.afterContent, EditedAnnotations(board, edit))
  {
    var thought := Lookup(board.thoughts, edit.id).value
                     .(content := edit.afterContent, annotations := EditedAnnotations(board, edit));
    PutIsValid(board.thoughts, edit.id, thought);
    PutKeepsDistinct(board.thoughts, edit.id, thought);
    forall id
      ensures Lookup(Put(board.thoughts, edit.id, thought), id) ==
              if id == edit.id then Some(thought) else Lookup(board.thoughts, id)
    {
      LookupAfterPut(board.thoughts, edit.id, thought, id);
    }
  }

  lemma UnnumberedIf(s: State, edit: Rewrite)
    requires Valid(s.board.thoughts) && IsChange(edit)
    ensures Unnumbered(s, edit).Some? == EditGoesThrough(s, edit, false)
    ensures EditGoesThrough(s, edit, false) ==>
              var t := Tracked(Unnumbered(s, edit).value, s.highest + 1);
              EditedAsAsked(s, edit, Done(t, [Commit(s.highest + 1)]))
  {
    if Applies(s.board.thoughts, edit) { CheckedIfFits(s.board, edit); }
  }

  lemma EditedOutcome(s: State, edit: Rewrite, refused: bool)
    ensures Reduce(s, Action.Edit(edit), refused) ==
            if Stopped(s, Action.Edit(edit)) then Rejected(s) else Edited(s, edit, refused)
  {
  }

  /**
   * An edit is accepted exactly if its thought is unlocked, storage works, it replaces the exact text, and, unless it
   * changes nothing, a sequence and numbers are left and its annotations fit among those of the other live thoughts.
   */
  lemma EditsDoAsAsked(s: State, edit: Rewrite, refused: bool)
    requires Valid(s.board.thoughts)
    ensures var o := Reduce(s, Action.Edit(edit), refused);
            && o.ok == (Free(s, Action.Edit(edit)) && EditGoesThrough(s, edit, refused))
            && (if o.ok && IsChange(edit) then EditedAsAsked(s, edit, o) else o.state == s && o.effects == [])
  {
    StoppedUnlessFree(s, Action.Edit(edit));
    EditedOutcome(s, edit, refused);
    if IsChange(edit) { UnnumberedIf(s, edit); }
  }

  predicate Touches(operation: Operation, id: ThoughtId) {
    Addresses(operation.forward, id) || Addresses(operation.inverse, id)
  }

  lemma {:induction false} RedoKeptExactly(history: seq<Operation>, from: nat, id: ThoughtId)
    requires from <= |history|
    ensures var kept := RedoKept(history, from, id);
            && from <= kept <= |history| && (forall i :: from <= i < kept ==> !Touches(history[i], id))
            && (kept < |history| ==> Touches(history[kept], id))
    decreases |history| - from
  {
    if from < |history| && !Touches(history[from], id) { RedoKeptExactly(history, from + 1, id); }
  }

  /** An edit leaves what can be redone on the board, up to the first operation that touches its thought. */
  lemma EditsKeepRedo(s: State, edit: Rewrite, refused: bool)
    requires s.cursor <= |s.history| && Reduce(s, Action.Edit(edit), refused).ok && IsChange(edit)
    ensures var t := Reduce(s, Action.Edit(edit), refused).state;
            && t.cursor == s.cursor <= |t.history| <= |s.history| && t.history == s.history[..|t.history|]
            && (forall i :: s.cursor <= i < |t.history| ==> !Touches(s.history[i], edit.id))
            && (|t.history| < |s.history| ==> Touches(s.history[|t.history|], edit.id))
  {
    EditedOutcome(s, edit, refused);
    RedoKeptExactly(s.history, s.cursor, edit.id);
  }

  // ---------------------------------------------------------------------------------------------
  // Locks

  /** Locking takes live, unlocked thoughts, at least one, all of them or none. */
  lemma LocksAreTakenTogether(s: State, ids: seq<ThoughtId>, refused: bool)
    ensures var o := Reduce(s, BeginSubmission(ids), refused);
            && (o.ok <==> ids != [] && forall id :: id in ids ==> LiveAt(s.board.thoughts, id) && id !in s.locked)
            && o.state == s.(locked := o.state.locked) && o.effects == []
            && (forall id :: id in o.state.locked <==> id in s.locked || (o.ok && id in ids))
  {
    TransitionOutcome(s, BeginSubmission(ids), refused);
    if forall id :: id in ids ==> LiveAt(s.board.thoughts, id) && id !in s.locked {
      assert forall i :: 0 <= i < |ids| ==> ids[i] in ids;
    }
  }

  /** Releasing always works. */
  lemma LocksAreReleased(s: State, ids: seq<ThoughtId>, refused: bool)
    ensures var o := Reduce(s, EndSubmission(ids), refused);
            && o.ok && o.state == s.(locked := o.state.locked) && o.effects == []
            && (forall id :: id in o.state.locked <==> id in s.locked && id !in ids)
  {
    TransitionOutcome(s, EndSubmission(ids), refused);
  }

  lemma TransitionOutcome(s: State, action: Action, refused: bool)
    requires action.BeginSubmission? || action.EndSubmission?
    ensures Reduce(s, action, refused) == Transition(s, action)
  {
  }

  // ---------------------------------------------------------------------------------------------
  // Receipts, failures and retries

  predicate IsFirst(pending: seq<nat>, sequence: nat) { pending != [] && pending[0] == sequence }

  predicate CanCommit(s: State, sequence: nat, refused: bool) {
    sequence in s.deferred ==> !refused && ApplyMutation(s.board, s.deferred[sequence].forward).Some?
  }

  /** A receipt is accepted exactly for the first pending sequence, if what is staged under it can be carried out. */
  lemma ReceiptAccepted(s: State, sequence: nat, refused: bool)
    ensures var o := Reduce(s, PersistenceCommitted(sequence), refused);
            && (o.ok <==> (IsFirst(s.pending, sequence) && CanCommit(s, sequence, refused)))
            && o.effects == []
            && (if o.ok then
                  && o.state.pending == s.pending[1..] && o.state.deferred == s.deferred - {sequence}
                  && o.state.board.thoughts ==
                     (if sequence in s.deferred
                      then ApplyMutation(s.board, s.deferred[sequence].forward).value.thoughts else s.board.thoughts)
                  && o.state.highest == s.highest && o.state.board.lastDurable >= sequence
                  && o.state.board.lastDurable >= s.board.lastDurable
                else o.state == s)
  {
  }

  /** A failure is shown exactly for a pending sequence, the lowest one of several. */
  lemma FailuresAreShown(s: State, sequence: nat, code: Code, refused: bool)
    ensures var o := Reduce(s, PersistenceFailed(sequence, code), refused);
            && (o.ok <==> sequence in s.pending)
            && o.state == s.(durability := o.state.durability)
            && (if o.ok then
                  && o.effects == [Notify] && o.state.durability.Failed? && o.state.durability.code == code
                  && o.state.durability.failed <= sequence
                  && (o.state.durability.failed == sequence ||
                      (s.durability.Failed? && o.state.durability.failed == s.durability.failed))
                  && (s.durability.Failed? ==> o.state.durability.failed <= s.durability.failed)
                else o.state == s && o.effects == [])
  {
  }

  /** A retry is accepted exactly for the failure shown, unless it is beyond recovery, and asks for that sequence. */
  lemma FailuresAreRetried(s: State, sequence: nat, refused: bool)
    requires Inv(s)
    ensures var o := Reduce(s, RetryPersistence(sequence), refused);
            && (o.ok <==> s.durability.Failed? && s.durability.failed == sequence && s.durability.code == OtherCode)
            && o.state == s.(durability := o.state.durability)
            && (if o.ok then o.effects == [RetryStorage(sequence)] && o.state.durability.Outstanding?
                else o.state == s && o.effects == [])
  {
  }

  /** The receipts of some sequences, one after the other. */
  function Receipts(pending: seq<nat>): seq<Input> {
    seq(|pending|, i requires 0 <= i < |pending| => Act(PersistenceCommitted(pending[i]), false))
  }

  lemma ReceiptStep(s: State)
    requires Inv(s) && s.deferred == map[] && s.pending != []
    ensures var o := Step(s, Act(PersistenceCommitted(s.pending[0]), false));
            && o.ok && Inv(o.state) && o.state.deferred == map[] && o.state.pending == s.pending[1..]
            && o.state.highest == s.highest && o.state.board.thoughts == s.board.thoughts
  {
    ReceiptAccepted(s, s.pending[0], false);
    assert s.deferred - {s.pending[0]} == map[];
    StepIsSound(s, Act(PersistenceCommitted(s.pending[0]), false));
  }

  lemma StepIsSound(s: State, input: Input)
    requires Inv(s)
    ensures Inv(Step(s, input).state)
  {
    GoodSteps(s, input);
  }

  lemma {:induction false} ReceiptsInOrder(s: State, n: nat)
    requires Inv(s) && s.deferred == map[] && n <= |s.pending|
    ensures var t := After(s, Receipts(s.pending)[..n]);
            && Inv(t) && t.deferred == map[] && t.pending == s.pending[n..] && t.highest == s.highest
            && t.board.thoughts == s.board.thoughts
  {
    if n > 0 {
      ReceiptsInOrder(s, n - 1);
      var receipts := Receipts(s.pending);
      assert receipts[..n] == receipts[..n - 1] + [receipts[n - 1]];
      assert receipts[..n][..n - 1] == receipts[..n - 1];
      ReceiptStep(After(s, receipts[..n - 1]));
    }
  }

  /** Whatever was pending or had failed, once storage has confirmed it in order, everything is durable. */
  lemma ReceiptsMakeDurable(s: State)
    requires Inv(s) && s.deferred == map[]
    ensures var t := After(s, Receipts(s.pending));
            t.pending == [] && t.durability == Settled(s.highest) && t.board.thoughts == s.board.thoughts
  {
    ReceiptsInOrder(s, |s.pending|);
    assert Receipts(s.pending)[..|s.pending|] == Receipts(s.pending);
  }

  // ---------------------------------------------------------------------------------------------
  // Staged removals

  predicate StagesRemoval(s: State, o: Outcome, ids: seq<ThoughtId>, at: Timestamp) {
    && o.effects == [Commit(s.highest + 1)] && o.state.highest == s.highest + 1
    && o.state.board == s.board && o.state.history == s.history && o.state.locked == s.locked
    && o.state.deferred.Keys == {s.highest + 1}
    && var operation := o.state.deferred[s.highest + 1];
       operation.sequence == s.highest + 1 && operation.forward == Batch(Deletions(ids, Some(at)))
       && operation.inverse == Batch(Deletions(ids, None))
  }

  /** A removal is staged exactly for a selection of locked thoughts, while storage works and a sequence is left. */
  lemma LockedSelectionsAreStaged(s: State, ids: seq<ThoughtId>, at: Timestamp, refused: bool)
    ensures var o := Reduce(s, StageRemoval(ids, at), refused);
            && (o.ok <==> !s.durability.Failed? && SequenceLeft(s) && Selectable(s.board.thoughts, ids)
                          && forall id :: id in ids ==> id in s.locked)
            && (if o.ok then StagesRemoval(s, o, ids, at) else o.state == s && o.effects == [])
  {
    if forall id :: id in ids ==> id in s.locked {
      assert forall i :: 0 <= i < |ids| ==> ids[i] in ids;
    }
    if s.deferred == map[] {
      assert map[s.highest + 1 := 0].Keys == {s.highest + 1};
    }
  }

  /** Carried out, a removal deletes its selection from any valid board that has it. */
  lemma RemovalApplies(board: Board, ids: seq<ThoughtId>, at: Timestamp)
    requires Valid(board.thoughts) && Selectable(board.thoughts, ids)
    ensures ApplyMutation(board, Batch(Deletions(ids, Some(at)))).Some?
    ensures Fulfilled(board, ApplyMutation(board, Batch(Deletions(ids, Some(at)))).value.thoughts, Delete(ids, at))
  {
    var action := Delete(ids, at);
    PlanReaches(board, action);
    ThesePass(board, action);
    assert PlanOf(board, action).forward == Deletions(ids, Some(at));
    PassesIfApplied(board, action, Batch(Deletions(ids, Some(at))));
  }

  /**
   * Whatever happens between a staged removal and its receipt, the receipt is accepted exactly when its sequence is the
   * first one pending and it is not refused; then exactly the removed thoughts are deleted.
   */
  lemma StagedRemovalsHappen(s: State, ids: seq<ThoughtId>, at: Timestamp, inputs: seq<Input>, refused: bool)
    requires Inv(s) && Valid(s.board.thoughts) && Reduce(s, StageRemoval(ids, at), false).ok
    requires G.Awaits(inputs, s.highest + 1)
    ensures var t := After(Reduce(s, StageRemoval(ids, at), false).state, inputs);
            var o := Reduce(t, PersistenceCommitted(s.highest + 1), refused);
            && t.board.thoughts == s.board.thoughts
            && (o.ok <==> IsFirst(t.pending, s.highest + 1) && !refused)
            && (if o.ok then Fulfilled(s.board, o.state.board.thoughts, Delete(ids, at)) && o.state.deferred == map[]
                else o.state == t)
  {
    var sequence := s.highest + 1;
    LockedSelectionsAreStaged(s, ids, at, false);
    var staged := Reduce(s, StageRemoval(ids, at), false).state;
    GoodSteps(s, Act(StageRemoval(ids, at), false));
    G.StagedItemsStand(staged, inputs, sequence);
    var t := After(staged, inputs);
    RemovalApplies(t.board, ids, at);
    ReceiptAccepted(t, sequence, refused);
    FulfilledAlike(s.board, t.board, ApplyMutation(t.board, t.deferred[sequence].forward).value.thoughts, ids, at);
  }

  lemma FulfilledAlike(a: Board, b: Board, after: seq<Entry>, ids: seq<ThoughtId>, at: Timestamp)
    requires a.thoughts == b.thoughts && Fulfilled(b, after, Delete(ids, at))
    ensures Fulfilled(a, after, Delete(ids, at))
  {
    assert forall i :: 0 <= i < |ids| ==> Gone(b.thoughts, after, ids[i], at);
  }

  // ---------------------------------------------------------------------------------------------
  // Screenshots

  /** It comes under the next sequence, adds a thought that is not live, and can be undone by a deletion. */
  predicate ShotIsPossible(s: State, operation: Operation) {
    && SequenceLeft(s) && operation.sequence == s.highest + 1
    && operation.forward.AddThought? && operation.inverse.SetDeletion?
    && !LiveAt(s.board.thoughts, operation.forward.id)
  }

  ghost predicate ShotFulfilled(board: Board, after: seq<Entry>, operation: Operation)
    requires operation.forward.AddThought?
  {
    && Only(board.thoughts, after, [operation.forward.id])
    && Made(board.thoughts, after, operation.forward.id, operation.forward.thought.(deletedAt := None))
  }

  /** A board with the thought added passes validation. */
  ghost predicate ShotPasses(board: Board, operation: Operation)
    requires operation.forward.AddThought?
  {
    exists want :: Valid(want) && ShotFulfilled(board, want, operation)
  }

  lemma ShotPassesIfApplied(board: Board, operation: Operation)
    requires Valid(board.thoughts) && operation.forward.AddThought? && !LiveAt(board.thoughts, operation.forward.id)
    ensures ApplyMutation(board, operation.forward).Some? <==> ShotPasses(board, operation)
    ensures ApplyMutation(board, operation.forward).Some? ==>
              ShotFulfilled(board, ApplyMutation(board, operation.forward).value.thoughts, operation)
  {
    MutationsDoAsAsked(board.thoughts, operation.forward);
    var after := Mutated(board.thoughts, operation.forward).value;
    MutationKeepsDistinct(board.thoughts, operation.forward);
    assert ShotFulfilled(board, after, operation);
    if ShotPasses(board, operation) {
      var want :| Valid(want) && ShotFulfilled(board, want, operation);
      SameById(board.thoughts, want, after, [operation.forward.id]);
      U.SameIsValid(want, after);
    }
  }

  lemma ShotTaken(s: State, operation: Operation, refused: bool)
    requires Captured(s, operation, refused).Some?
    ensures ShotIsPossible(s, operation) && !refused && ApplyMutation(s.board, operation.forward).Some?
    ensures var t := Captured(s, operation, refused).value;
            && t.board.thoughts == ApplyMutation(s.board, operation.forward).value.thoughts
            && t.highest == operation.sequence && t.board.lastDurable == operation.sequence && t.pending == s.pending
  {
    MutationsDoAsAsked(s.board.thoughts, operation.forward);
  }

  /**
   * A screenshot that storage has accepted is taken over exactly if it comes under the next sequence, nothing is
   * staged, it is not refused, and the board with its thought passes validation. It is durable at once.
   */
  lemma ScreenshotsDoAsAsked(s: State, operation: Operation, refused: bool)
    requires Valid(s.board.thoughts)
    ensures var taken := Captured(s, operation, refused);
            && (taken.Some? <==> ShotIsPossible(s, operation) && !refused && ShotPasses(s.board, operation))
            && (taken.Some? ==>
                  && ShotFulfilled(s.board, taken.value.board.thoughts, operation)
                  && taken.value.highest == operation.sequence && taken.value.board.lastDurable == operation.sequence
                  && taken.value.pending == s.pending)
  {
    if Captured(s, operation, refused).Some? { ShotTaken(s, operation, refused); }
    if ShotIsPossible(s, operation) { ShotPassesIfApplied(s.board, operation); }
  }
}
