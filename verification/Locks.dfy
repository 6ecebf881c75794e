/**
 * Between the start and the end of a submission its thoughts keep their text, whatever else happens. Whether they stay
 * live is another matter: a staged removal takes them off the board, and a creation under the same identity brings them
 * back. Both are stated exactly.
 */
module Locks {
  import opened Options
  import opened AttachmentNumbering
  import opened SessionBoards
  import opened Reducer
  import opened Durability

  // ---------------------------------------------------------------------------------------------
  // Mutations that leave a thought's text alone

  /** Everything but liveness is the same. */
  predicate SameText(a: Thought, b: Thought) { b == a.(deletedAt := b.deletedAt) }

  /** The thought is still there with the same text; a live one is not changed at all. */
  predicate Kept(before: seq<Entry>, after: seq<Entry>, id: ThoughtId) {
    var a, b := Lookup(before, id), Lookup(after, id);
    a.Some? ==> b.Some? && SameText(a.value, b.value) && (Live(a.value) ==> b == a)
  }

  /** Addressed other than by adding it, which leaves a thought that exists as it is. */
  predicate Changes(mutation: Mutation, id: ThoughtId) {
    match mutation
    case Batch(mutations) => exists i :: 0 <= i < |mutations| && Changes(mutations[i], id)
    case ChangeSeparator => false
    case AddThought(_, _) => false
    case _ => mutation.id == id
  }

  lemma SingleKeeps(thoughts: seq<Entry>, mutation: Mutation, id: ThoughtId)
    requires !mutation.Batch? && Single(thoughts, mutation).Some? && !Changes(mutation, id)
    ensures Kept(thoughts, Single(thoughts, mutation).value, id)
  {
    if mutation.AddThought? && mutation.id == id {
      if Lookup(thoughts, id).Some? {
        LookupAfterPut(thoughts, id, Lookup(thoughts, id).value.(deletedAt := None), id);
      }
    } else {
      SingleLeavesOthers(thoughts, mutation, id);
    }
  }

  lemma {:induction false} MutationKeeps(thoughts: seq<Entry>, mutation: Mutation, id: ThoughtId)
    requires Mutated(thoughts, mutation).Some? && !Changes(mutation, id)
    ensures Kept(thoughts, Mutated(thoughts, mutation).value, id)
    decreases mutation, Steps(mutation)
  {
    if mutation.Batch? {
      BatchKeeps(thoughts, mutation, |mutation.mutations|, id);
    } else {
      SingleKeeps(thoughts, mutation, id);
    }
  }

  lemma {:induction false} BatchKeeps(thoughts: seq<Entry>, batch: Mutation, n: nat, id: ThoughtId)
    requires batch.Batch? && n <= |batch.mutations| && MutatedBy(thoughts, batch, n).Some? && !Changes(batch, id)
    ensures Kept(thoughts, MutatedBy(thoughts, batch, n).value, id)
    decreases batch, n
  {
    if n > 0 {
      BatchKeeps(thoughts, batch, n - 1, id);
      MutationKeeps(MutatedBy(thoughts, batch, n - 1).value, batch.mutations[n - 1], id);
    }
  }

  /** A removal changes nothing but liveness, of any thought. */
  lemma {:induction false} RemovalKeepsText(thoughts: seq<Entry>, batch: Mutation, n: nat, id: ThoughtId)
    requires IsRemoval(batch) && n <= |batch.mutations| && MutatedBy(thoughts, batch, n).Some?
    requires Lookup(thoughts, id).Some?
    ensures var after := Lookup(MutatedBy(thoughts, batch, n).value, id);
            after.Some? && SameText(Lookup(thoughts, id).value, after.value)
  {
    if n > 0 {
      RemovalKeepsText(thoughts, batch, n - 1, id);
      var before := MutatedBy(thoughts, batch, n - 1).value;
      var deletion := batch.mutations[n - 1];
      var found := Lookup(before, deletion.id);
      if found.Some? {
        LookupAfterPut(before, deletion.id, found.value.(deletedAt := deletion.deletedAt), id);
      }
    }
  }

  // ---------------------------------------------------------------------------------------------
  // Actions change only thoughts whose lock they respect

  lemma {:induction false} DifferingAreSelected(thoughts: seq<Entry>, ids: seq<ThoughtId>, presentation: nat)
    requires AllLive(thoughts, ids)
    ensures forall i :: 0 <= i < |Differing(thoughts, ids, presentation)| ==>
              Differing(thoughts, ids, presentation)[i] in ids
  {
    if ids != [] { DifferingAreSelected(thoughts, ids[..|ids| - 1], presentation); }
  }

  predicate ChangesOnly(forward: seq<Mutation>, ids: seq<ThoughtId>) {
    forall i :: 0 <= i < |forward| ==>
      !forward[i].Batch? && (forward[i].AddThought? || forward[i].ChangeSeparator? || forward[i].id in ids)
  }

  lemma PresentRespectsLocks(thoughts: seq<Entry>, ids: seq<ThoughtId>, presentation: nat)
    requires PresentPlan(thoughts, ids, presentation).Perform?
    ensures ChangesOnly(PresentPlan(thoughts, ids, presentation).forward, ids)
  {
    DifferingAreSelected(thoughts, ids, presentation);
  }

  lemma ReflowRespectsLocks(thoughts: seq<Entry>, edits: seq<Rewrite>)
    requires ReflowPlan(thoughts, edits).Perform?
    ensures ChangesOnly(ReflowPlan(thoughts, edits).forward, EditIds(edits))
  {
    assert forall i :: 0 <= i < |edits| ==> EditIds(edits)[i] == edits[i].id;
  }

  lemma MergeRespectsLocks(thoughts: seq<Entry>, ids: seq<ThoughtId>, content: string, annotations: seq<Annotation>,
                           at: Timestamp)
    requires MergePlan(thoughts, ids, content, annotations, at).Perform?
    ensures ChangesOnly(MergePlan(thoughts, ids, content, annotations, at).forward, ids)
  {
  }

  lemma ExportRespectsLocks(board: Board, sources: seq<Source>, reference: Creation, at: Timestamp)
    requires ExportPlan(board, sources, reference, at).Perform?
    ensures ChangesOnly(ExportPlan(board, sources, reference, at).forward, SourceIds(sources))
  {
    assert forall i :: 0 <= i < |sources| ==> SourceIds(sources)[i] == sources[i].id;
  }

  lemma MovesRespectLocks(ids: seq<ThoughtId>, moved: seq<ThoughtId>)
    ensures ChangesOnly([ChangeSeparator] + seq(|moved|, i requires 0 <= i < |moved| => MoveThought(moved[i])),
                        ids + moved)
  {
  }

  /** Whatever an action plans, it changes only thoughts whose lock it was checked against, or adds some. */
  lemma PlanRespectsLocks(board: Board, action: Action)
    requires Plans(action) && PlanOf(board, action).Perform?
    ensures ChangesOnly(PlanOf(board, action).forward, Guarded(action))
  {
    match action
    case Present(ids, presentation) => PresentRespectsLocks(board.thoughts, ids, presentation);
    case Reflow(edits) => ReflowRespectsLocks(board.thoughts, edits);
    case Merge(ids, content, annotations, at) => MergeRespectsLocks(board.thoughts, ids, content, annotations, at);
    case ReplaceExported(sources, reference, at) => ExportRespectsLocks(board, sources, reference, at);
    case Move(ids, moved, _) => MovesRespectLocks(ids, moved);
    case _ =>
  }

  lemma OnlyGuardedChange(forward: seq<Mutation>, ids: seq<ThoughtId>, id: ThoughtId)
    requires ChangesOnly(forward, ids) && id !in ids
    ensures !Changes(Batch(forward), id)
  {
  }

  // ---------------------------------------------------------------------------------------------
  // Steps

  /** The thought is kept and the lock stays. */
  predicate Protected(s: State, t: State, id: ThoughtId) {
    Kept(s.board.thoughts, t.board.thoughts, id) && t.locked == s.locked
  }

  lemma PerformedProtects(s: State, plan: Plan, refused: bool, ids: seq<ThoughtId>, id: ThoughtId)
    requires plan.Perform? ==> ChangesOnly(plan.forward, ids)
    requires id !in ids
    ensures Protected(s, Performed(s, plan, refused).state, id)
  {
    if plan.Perform? {
      OnlyGuardedChange(plan.forward, ids, id);
      if Mutated(s.board.thoughts, Batch(plan.forward)).Some? {
        MutationKeeps(s.board.thoughts, Batch(plan.forward), id);
      }
    }
  }

  lemma Unguarded(s: State, action: Action, id: ThoughtId)
    requires !LockedOut(s, action) && id in s.locked
    ensures id !in Guarded(action)
  {
  }

  lemma PlansProtect(s: State, action: Action, refused: bool, id: ThoughtId)
    requires Plans(action) && id in s.locked
    ensures Protected(s, Reduce(s, action, refused).state, id)
  {
    if !Stopped(s, action) {
      Unguarded(s, action, id);
      if PlanOf(s.board, action).Perform? { PlanRespectsLocks(s.board, action); }
      PerformedProtects(s, PlanOf(s.board, action), refused, Guarded(action), id);
    }
  }

  /** The thought is as it was, and so are the locks. */
  predicate Untouched(s: State, t: State, id: ThoughtId) {
    Lookup(t.board.thoughts, id) == Lookup(s.board.thoughts, id) && t.locked == s.locked
  }

  lemma EditLeaves(s: State, edit: Rewrite, refused: bool, id: ThoughtId)
    requires edit.id != id
    ensures Untouched(s, Edited(s, edit, refused).state, id)
  {
    forall thought
      ensures Lookup(Put(s.board.thoughts, edit.id, thought), id) == Lookup(s.board.thoughts, id)
    {
      LookupAfterPut(s.board.thoughts, edit.id, thought, id);
    }
  }

  lemma EditorMoveLeaves(s: State, moved: ThoughtId, undo: bool, id: ThoughtId)
    requires moved != id && MovedEditor(s, moved, undo).Some?
    ensures Untouched(s, MovedEditor(s, moved, undo).value, id)
  {
    forall thought
      ensures Lookup(Put(s.board.thoughts, moved, thought), id) == Lookup(s.board.thoughts, id)
    {
      LookupAfterPut(s.board.thoughts, moved, thought, id);
    }
  }

  lemma BoardMoveLeaves(s: State, undo: bool, id: ThoughtId)
    requires id in s.locked && !ReplayLocked(s, undo) && MovedBoard(s, undo).Some?
    ensures Untouched(s, MovedBoard(s, undo).value, id)
  {
    OthersAreUntouched(s.board.thoughts, ReplayOf(NextOperation(s, undo).value, undo), id);
  }

  lemma HistoryLeaves(s: State, scope: Scope, undo: bool, refused: bool, id: ThoughtId)
    requires id in s.locked
    requires if scope.EditorScope? then scope.id != id else !ReplayLocked(s, undo)
    ensures Untouched(s, HistoryMoved(s, scope, undo, refused).state, id)
  {
    if scope.EditorScope? {
      if MovedEditor(s, scope.id, undo).Some? { EditorMoveLeaves(s, scope.id, undo, id); }
    } else if MovedBoard(s, undo).Some? {
      BoardMoveLeaves(s, undo, id);
    }
  }

  lemma DeletionLeaves(s: State, ids: seq<ThoughtId>, at: Timestamp, refused: bool, id: ThoughtId)
    requires id !in ids
    ensures Untouched(s, Performed(s, PlanOf(s.board, Delete(ids, at)), refused).state, id)
  {
    var batch := Batch(Deletions(ids, Some(at)));
    assert !Addresses(batch, id);
    if Mutated(s.board.thoughts, batch).Some? { OthersAreUntouched(s.board.thoughts, batch, id); }
  }

  lemma CutLeaves(s: State, request: RequestId, written: bool, refused: bool, id: ThoughtId)
    requires id in s.locked
    ensures Untouched(s, ClipboardFinished(s, request, written, refused).state, id)
  {
    if request in s.clipboard {
      var entry, rest := s.clipboard[request], s.(clipboard := s.clipboard - {request});
      if !(exists i :: 0 <= i < |entry.sources| && entry.sources[i].id in s.locked) {
        assert id !in SourceIds(entry.sources);
        DeletionLeaves(rest, SourceIds(entry.sources), entry.at, refused, id);
      }
    }
  }

  /** A removal staged earlier may take the thought off the board, text and all. */
  predicate RemovedOnly(s: State, t: State, id: ThoughtId) {
    && t.locked == s.locked
    && var a, b := Lookup(s.board.thoughts, id), Lookup(t.board.thoughts, id);
       a.Some? ==> b.Some? && SameText(a.value, b.value)
  }

  lemma ReceiptRemovesOnly(s: State, sequence: nat, refused: bool, id: ThoughtId)
    requires Inv(s)
    ensures RemovedOnly(s, Persistence(s, PersistenceCommitted(sequence), refused).state, id)
    ensures sequence !in s.deferred ==> Protected(s, Persistence(s, PersistenceCommitted(sequence), refused).state, id)
  {
    if sequence in s.deferred && Lookup(s.board.thoughts, id).Some? {
      var removal := s.deferred[sequence].forward;
      if Mutated(s.board.thoughts, removal).Some? {
        RemovalKeepsText(s.board.thoughts, removal, |removal.mutations|, id);
      }
    }
  }

  predicate OnLocks(action: Action) { action.BeginSubmission? || action.EndSubmission? }

  lemma HandlersLeave(s: State, action: Action, refused: bool, id: ThoughtId)
    requires !Plans(action) && !Persists(action) && !OnLocks(action) && id in s.locked
    ensures Untouched(s, Reduce(s, action, refused).state, id)
  {
    if !Stopped(s, action) {
      Unguarded(s, action, id);
      HandledLeaves(s, action, refused, id);
    }
  }

  lemma HandledLeaves(s: State, action: Action, refused: bool, id: ThoughtId)
    requires !Plans(action) && !Persists(action) && !OnLocks(action) && !LockedOut(s, action)
    requires id in s.locked && id !in Guarded(action)
    ensures Untouched(s, Handled(s, action, refused).state, id)
  {
    if action.Edit? {
      EditLeaves(s, action.edit, refused, id);
    } else if action.ClipboardResult? {
      CutLeaves(s, action.request, action.written && !s.durability.Failed?, refused, id);
    } else if action.Undo? || action.Redo? {
      HistoryLeaves(s, action.scope, action.Undo?, refused, id);
    }
  }

  lemma ReceiptsProtect(s: State, action: Action, refused: bool, id: ThoughtId)
    requires Inv(s) && Persists(action)
    ensures RemovedOnly(s, Reduce(s, action, refused).state, id)
    ensures !(action.PersistenceCommitted? && action.sequence in s.deferred) ==>
              Protected(s, Reduce(s, action, refused).state, id)
  {
    if Stopped(s, action) {
    } else if action.PersistenceCommitted? {
      ReceiptRemovesOnly(s, action.sequence, refused, id);
    } else {
      TroubleKeepsBoard(s, action, refused);
    }
  }

  lemma TroubleKeepsBoard(s: State, action: Action, refused: bool)
    requires action.PersistenceFailed? || action.RetryPersistence?
    ensures Persistence(s, action, refused).state.board == s.board
    ensures Persistence(s, action, refused).state.locked == s.locked
  {
  }

  lemma TransitionsKeepText(s: State, action: Action, refused: bool, id: ThoughtId)
    requires OnLocks(action) && id in s.locked && !Releases(action, id)
    ensures Reduce(s, action, refused).state.board == s.board && id in Reduce(s, action, refused).state.locked
  {
  }

  predicate Releases(action: Action, id: ThoughtId) { action.EndSubmission? && id in action.ids }

  /** Still locked, and kept, or else taken off the board by the receipt of a staged removal. */
  predicate Shielded(s: State, action: Action, t: State, id: ThoughtId) {
    && id in t.locked
    && (Kept(s.board.thoughts, t.board.thoughts, id) ||
        (action.PersistenceCommitted? && action.sequence in s.deferred && RemovedOnly(s, t, id)))
  }

  /**
   * No action changes a locked thought's text, name, presentation or liveness, but for the receipt of a staged
   * removal, which takes it off the board and leaves the rest. (A thought so removed comes back, with its text,
   * if it is created again.)
   */
  lemma LockedThoughtsAreProtected(s: State, action: Action, refused: bool, id: ThoughtId)
    requires Inv(s) && id in s.locked && !Releases(action, id)
    ensures Shielded(s, action, Reduce(s, action, refused).state, id)
  {
    if Plans(action) {
      PlansProtect(s, action, refused, id);
    } else if Persists(action) {
      ReceiptsProtect(s, action, refused, id);
    } else if OnLocks(action) {
      TransitionsKeepText(s, action, refused, id);
    } else {
      HandlersLeave(s, action, refused, id);
    }
  }

  lemma ShotProtects(s: State, operation: Operation, refused: bool, id: ThoughtId)
    requires id in s.locked
    ensures Protected(s, Step(s, Shot(operation, refused)).state, id)
  {
    if Captured(s, operation, refused).Some? { MutationKeeps(s.board.thoughts, operation.forward, id); }
  }

  // ---------------------------------------------------------------------------------------------
  // Whole submissions

  predicate NeverReleased(inputs: seq<Input>, id: ThoughtId) {
    forall i :: 0 <= i < |inputs| && inputs[i].Act? ==> !Releases(inputs[i].action, id)
  }

  /** From lock to release, the text that was submitted is the text on record. */
  lemma {:induction false} SubmittedTextStands(s: State, inputs: seq<Input>, id: ThoughtId)
    requires Inv(s) && id in s.locked && Lookup(s.board.thoughts, id).Some? && NeverReleased(inputs, id)
    ensures var t := After(s, inputs);
            && Inv(t) && id in t.locked && Lookup(t.board.thoughts, id).Some?
            && SameText(Lookup(s.board.thoughts, id).value, Lookup(t.board.thoughts, id).value)
  {
    if inputs != [] {
      var before, input := inputs[..|inputs| - 1], inputs[|inputs| - 1];
      SubmittedTextStands(s, before, id);
      GoodSteps(After(s, before), input);
      TextStep(After(s, before), input, id);
    }
  }

  lemma TextStep(s: State, input: Input, id: ThoughtId)
    requires Inv(s) && id in s.locked && Lookup(s.board.thoughts, id).Some?
    requires input.Act? ==> !Releases(input.action, id)
    ensures var t := Step(s, input).state;
            && id in t.locked && Lookup(t.board.thoughts, id).Some?
            && SameText(Lookup(s.board.thoughts, id).value, Lookup(t.board.thoughts, id).value)
  {
    match input
    case Act(action, refused) => LockedThoughtsAreProtected(s, action, refused, id);
    case Shot(operation, refused) => ShotProtects(s, operation, refused, id);
  }

  // ---------------------------------------------------------------------------------------------
  // Liveness, exactly

  predicate Adds(batch: seq<Mutation>, n: nat, id: ThoughtId)
    requires n <= |batch|
  {
    exists i :: 0 <= i < n && batch[i].AddThought? && batch[i].id == id
  }

  lemma SingleLiveness(thoughts: seq<Entry>, mutation: Mutation, id: ThoughtId)
    requires !mutation.Batch? && Single(thoughts, mutation).Some? && !Changes(mutation, id)
    ensures LiveAt(Single(thoughts, mutation).value, id) <==>
            LiveAt(thoughts, id) || (mutation.AddThought? && mutation.id == id)
  {
    if mutation.AddThought? && mutation.id == id {
      var thought := if Lookup(thoughts, id).None? then mutation.thought else Lookup(thoughts, id).value;
      LookupAfterPut(thoughts, id, thought.(deletedAt := None), id);
    } else {
      SingleLeavesOthers(thoughts, mutation, id);
    }
  }

  /** A plan that respects the lock makes the thought live exactly by adding it. */
  lemma {:induction false} PlanLiveness(thoughts: seq<Entry>, forward: seq<Mutation>, ids: seq<ThoughtId>, n: nat,
                                        id: ThoughtId)
    requires ChangesOnly(forward, ids) && id !in ids && n <= |forward|
    requires MutatedBy(thoughts, Batch(forward), n).Some?
    ensures LiveAt(MutatedBy(thoughts, Batch(forward), n).value, id) <==> LiveAt(thoughts, id) || Adds(forward, n, id)
  {
    if n > 0 {
      PlanLiveness(thoughts, forward, ids, n - 1, id);
      var before := MutatedBy(thoughts, Batch(forward), n - 1).value;
      assert Batch(forward).mutations[n - 1] == forward[n - 1];
      SingleLiveness(before, forward[n - 1], id);
    }
  }

  predicate Lists(removal: Mutation, id: ThoughtId) {
    removal.Batch? && exists i :: 0 <= i < |removal.mutations| && Addresses(removal.mutations[i], id)
  }

  /** A removal deletes what it lists and leaves the rest. */
  lemma {:induction false} RemovalLiveness(thoughts: seq<Entry>, batch: Mutation, n: nat, id: ThoughtId)
    requires IsRemoval(batch) && n <= |batch.mutations| && MutatedBy(thoughts, batch, n).Some?
    ensures LiveAt(MutatedBy(thoughts, batch, n).value, id) <==>
            LiveAt(thoughts, id) && !exists i :: 0 <= i < n && batch.mutations[i].id == id
  {
    if n > 0 {
      RemovalLiveness(thoughts, batch, n - 1, id);
      var before, deletion := MutatedBy(thoughts, batch, n - 1).value, batch.mutations[n - 1];
      var found := Lookup(before, deletion.id);
      if found.Some? { LookupAfterPut(before, deletion.id, found.value.(deletedAt := deletion.deletedAt), id); }
    }
  }

  /** The accepted receipt of a staged removal that lists the live thought. */
  predicate Removes(s: State, action: Action, o: Outcome, id: ThoughtId) {
    && action.PersistenceCommitted? && o.ok && action.sequence in s.deferred
    && LiveAt(s.board.thoughts, id) && Lists(s.deferred[action.sequence].forward, id)
  }

  /** An accepted plan that adds the thought while it is deleted. */
  predicate Revives(s: State, action: Action, o: Outcome, id: ThoughtId) {
    Plans(action) && PlanRevives(s, PlanOf(s.board, action), o, id)
  }

  predicate PlanRevives(s: State, plan: Plan, o: Outcome, id: ThoughtId) {
    o.ok && plan.Perform? && !LiveAt(s.board.thoughts, id) && Adds(plan.forward, |plan.forward|, id)
  }

  predicate Flips(s: State, t: State, id: ThoughtId) { LiveAt(t.board.thoughts, id) != LiveAt(s.board.thoughts, id) }

  lemma PlansFlip(s: State, action: Action, refused: bool, id: ThoughtId)
    requires Plans(action) && id in s.locked
    ensures Flips(s, Reduce(s, action, refused).state, id) <==> Revives(s, action, Reduce(s, action, refused), id)
  {
    if !Stopped(s, action) {
      Unguarded(s, action, id);
      if PlanOf(s.board, action).Perform? { PlanRespectsLocks(s.board, action); }
      PerformedFlips(s, PlanOf(s.board, action), refused, Guarded(action), id);
    }
  }

  lemma PerformedFlips(s: State, plan: Plan, refused: bool, ids: seq<ThoughtId>, id: ThoughtId)
    requires (plan.Perform? ==> ChangesOnly(plan.forward, ids)) && id !in ids
    ensures var o := Performed(s, plan, refused);
            Flips(s, o.state, id) <==> PlanRevives(s, plan, o, id)
  {
    if plan.Perform? && Mutated(s.board.thoughts, Batch(plan.forward)).Some? {
      PlanLiveness(s.board.thoughts, plan.forward, ids, |plan.forward|, id);
    }
  }

  lemma ReceiptFlips(s: State, sequence: nat, refused: bool, id: ThoughtId)
    requires Inv(s)
    ensures var o := Persistence(s, PersistenceCommitted(sequence), refused);
            Flips(s, o.state, id) <==> Removes(s, PersistenceCommitted(sequence), o, id)
  {
    if sequence in s.deferred {
      var removal := s.deferred[sequence].forward;
      if Mutated(s.board.thoughts, removal).Some? {
        RemovalLiveness(s.board.thoughts, removal, |removal.mutations|, id);
      }
    }
  }

  lemma PersistsFlip(s: State, action: Action, refused: bool, id: ThoughtId)
    requires Inv(s) && Persists(action)
    ensures Flips(s, Reduce(s, action, refused).state, id) <==> Removes(s, action, Reduce(s, action, refused), id)
  {
    if Stopped(s, action) {
    } else if action.PersistenceCommitted? {
      ReceiptFlips(s, action.sequence, refused, id);
    } else {
      TroubleKeepsBoard(s, action, refused);
    }
  }

  /**
   * A locked thought changes between live and deleted exactly by the accepted receipt of a staged removal that
   * lists it, or, while deleted, by an accepted operation that creates it again.
   */
  lemma LockedLiveness(s: State, action: Action, refused: bool, id: ThoughtId)
    requires Inv(s) && id in s.locked
    ensures var o := Reduce(s, action, refused);
            Flips(s, o.state, id) <==> (Removes(s, action, o, id) || Revives(s, action, o, id))
  {
    if Plans(action) {
      PlansFlip(s, action, refused, id);
    } else if Persists(action) {
      PersistsFlip(s, action, refused, id);
    } else if OnLocks(action) {
      LocksKeepBoard(s, action, refused);
    } else {
      HandlersLeave(s, action, refused, id);
    }
  }

  lemma LocksKeepBoard(s: State, action: Action, refused: bool)
    requires OnLocks(action)
    ensures Reduce(s, action, refused).state.board == s.board
  {
  }

  /** A screenshot can only make it live, by creating it. */
  lemma ShotFlips(s: State, operation: Operation, refused: bool, id: ThoughtId)
    ensures var o := Step(s, Shot(operation, refused));
            Flips(s, o.state, id) <==> (o.ok && !LiveAt(s.board.thoughts, id) && operation.forward.id == id)
  {
    if Captured(s, operation, refused).Some? { SingleLiveness(s.board.thoughts, operation.forward, id); }
  }

  /** What flips liveness in one step of a run. */
  predicate FlipsAt(s: State, input: Input, id: ThoughtId) {
    var o := Step(s, input);
    match input
    case Act(action, _) => Removes(s, action, o, id) || Revives(s, action, o, id)
    case Shot(operation, _) => o.ok && !LiveAt(s.board.thoughts, id) && operation.forward.id == id
  }

  /** A run with all its states. */
  predicate RunStep(states: seq<State>, inputs: seq<Input>, i: nat)
    requires i < |inputs| && |states| == |inputs| + 1
  {
    states[i + 1] == Step(states[i], inputs[i]).state
  }

  predicate IsRun(states: seq<State>, inputs: seq<Input>) {
    |states| == |inputs| + 1
    && forall i {:trigger RunStep(states, inputs, i)} :: 0 <= i < |inputs| ==> RunStep(states, inputs, i)
  }

  /** `flips` marks the steps of a run that flip liveness. */
  predicate Marks(state: State, input: Input, flip: bool, id: ThoughtId) { flip <==> FlipsAt(state, input, id) }

  predicate Marked(states: seq<State>, inputs: seq<Input>, flips: seq<bool>, id: ThoughtId)
    requires |states| == |inputs| + 1
  {
    |flips| == |inputs|
    && forall i {:trigger Marks(states[i], inputs[i], flips[i], id)} :: 0 <= i < |inputs| ==>
         Marks(states[i], inputs[i], flips[i], id)
  }

  function Trues(flips: seq<bool>, n: nat): nat
    requires n <= |flips|
  {
    if n == 0 then 0 else Trues(flips, n - 1) + if flips[n - 1] then 1 else 0
  }

  /** From lock to release, the thought is live or not as before exactly if such steps came an even number of times. */
  lemma {:induction false} SubmittedLiveness(states: seq<State>, inputs: seq<Input>, id: ThoughtId, flips: seq<bool>,
                                             n: nat)
    requires IsRun(states, inputs) && Marked(states, inputs, flips, id) && NeverReleased(inputs, id) && n <= |inputs|
    requires Inv(states[0]) && id in states[0].locked && Lookup(states[0].board.thoughts, id).Some?
    ensures Inv(states[n]) && id in states[n].locked && Lookup(states[n].board.thoughts, id).Some?
    ensures (LiveAt(states[n].board.thoughts, id) == LiveAt(states[0].board.thoughts, id)) <==> Trues(flips, n) % 2 == 0
  {
    if n > 0 {
      SubmittedLiveness(states, inputs, id, flips, n - 1);
      MarkedStep(states, inputs, id, flips, n - 1);
      Parity(LiveAt(states[0].board.thoughts, id), LiveAt(states[n - 1].board.thoughts, id),
             LiveAt(states[n].board.thoughts, id), Trues(flips, n - 1), flips[n - 1]);
    }
  }

  lemma MarkedStep(states: seq<State>, inputs: seq<Input>, id: ThoughtId, flips: seq<bool>, i: nat)
    requires IsRun(states, inputs) && Marked(states, inputs, flips, id) && NeverReleased(inputs, id) && i < |inputs|
    requires Inv(states[i]) && id in states[i].locked && Lookup(states[i].board.thoughts, id).Some?
    ensures Inv(states[i + 1]) && id in states[i + 1].locked && Lookup(states[i + 1].board.thoughts, id).Some?
    ensures Flips(states[i], states[i + 1], id) <==> flips[i]
  {
    assert RunStep(states, inputs, i) && Marks(states[i], inputs[i], flips[i], id);
    GoodSteps(states[i], inputs[i]);
    TextStep(states[i], inputs[i], id);
    StepFlips(states[i], inputs[i], id);
  }

  lemma Parity(start: bool, now: bool, next: bool, count: nat, flips: bool)
    requires (now == start) <==> count % 2 == 0
    requires (next != now) <==> flips
    ensures (next == start) <==> (count + if flips then 1 else 0) % 2 == 0
  {
  }

  lemma StepFlips(s: State, input: Input, id: ThoughtId)
    requires Inv(s) && id in s.locked
    ensures Flips(s, Step(s, input).state, id) <==> FlipsAt(s, input, id)
  {
    match input
    case Act(action, refused) => LockedLiveness(s, action, refused, id);
    case Shot(operation, refused) => ShotFlips(s, operation, refused, id);
  }
}
