/**
 * A staged removal waits for its receipt while the board stands still. Until then no other operation gets a number, so
 * items, histories and the highest sequence stay as they were when the removal was built; the receipt applies it to
 * exactly those items.
 */
module Staging {
  import opened Options
  import opened AttachmentNumbering
  import opened SessionBoards
  import opened Reducer
  import opened Durability

  /** Board items, histories and the highest sequence. */
  predicate SameItems(s: State, t: State) {
    && t.board.thoughts == s.board.thoughts && t.board.counters == s.board.counters
    && t.history == s.history && t.cursor == s.cursor && t.editors == s.editors && t.highest == s.highest
  }

  predicate Stands(s: State, t: State) { SameItems(s, t) && t.deferred == s.deferred }

  lemma NothingPerformed(s: State, plan: Plan, refused: bool)
    requires NextSequence(s).None?
    ensures Performed(s, plan, refused).state == s
  {
  }

  lemma ClipboardStands(s: State, request: RequestId, written: bool, refused: bool)
    requires NextSequence(s).None? || !written
    ensures Stands(s, ClipboardFinished(s, request, written, refused).state)
  {
    if request in s.clipboard && written {
      var rest := s.(clipboard := s.clipboard - {request});
      NothingPerformed(rest, PlanOf(s.board, Delete(SourceIds(s.clipboard[request].sources), s.clipboard[request].at)),
                       refused);
    }
  }

  lemma PersistenceStands(s: State, action: Action, refused: bool)
    requires Persists(action) && (action.PersistenceCommitted? ==> action.sequence !in s.deferred)
    ensures Stands(s, Persistence(s, action, refused).state)
  {
    if action.PersistenceCommitted? { AcknowledgementStands(s, action.sequence, refused); }
  }

  lemma AcknowledgementStands(s: State, sequence: nat, refused: bool)
    requires sequence !in s.deferred
    ensures Stands(s, Persistence(s, PersistenceCommitted(sequence), refused).state)
  {
  }

  lemma OthersStand(s: State, action: Action, refused: bool)
    requires NextSequence(s).None? && !Plans(action) && !Persists(action)
    ensures Stands(s, Reduce(s, action, refused).state)
  {
    if !Stopped(s, action) { HandledStands(s, action, refused); }
  }

  lemma HandledStands(s: State, action: Action, refused: bool)
    requires NextSequence(s).None? && !Plans(action) && !Persists(action)
    ensures Stands(s, Handled(s, action, refused).state)
  {
    if action.ClipboardResult? {
      ClipboardStands(s, action.request, action.written && !s.durability.Failed?, refused);
    } else if action.Edit? {
      NothingEdited(s, action.edit, refused);
    } else if !action.Undo? && !action.Redo? && !action.StageRemoval? {
      OthersLeaveItems(s, action, refused);
    }
  }

  lemma NothingEdited(s: State, edit: Rewrite, refused: bool)
    requires NextSequence(s).None?
    ensures Edited(s, edit, refused).state == s
  {
  }

  lemma PlansStand(s: State, action: Action, refused: bool)
    requires NextSequence(s).None? && Plans(action)
    ensures Reduce(s, action, refused).state == s
  {
    if !Stopped(s, action) { NothingPerformed(s, PlanOf(s.board, action), refused); }
  }

  lemma PersistsStand(s: State, action: Action, refused: bool)
    requires Persists(action) && (action.PersistenceCommitted? ==> action.sequence !in s.deferred)
    ensures Stands(s, Reduce(s, action, refused).state)
  {
    if !Stopped(s, action) { PersistenceStands(s, action, refused); }
  }

  lemma FailedStands(s: State, action: Action, refused: bool)
    requires s.durability.Failed? && !Persists(action)
    ensures Stands(s, Reduce(s, action, refused).state)
  {
    if !Stopped(s, action) {
      if action.ClipboardResult? {
        ClipboardStands(s, action.request, false, refused);
      } else {
        OthersLeaveItems(s, action, refused);
      }
    }
  }

  predicate Frozen(s: State) { s.deferred != map[] || s.durability.Failed? }

  /**
   * While an operation is staged or storage has failed, no action but an acknowledgement changes items,
   * histories or the highest sequence; and an acknowledgement does so only by carrying out the staged one.
   */
  lemma FrozenWhileStagedOrFailed(s: State, action: Action, refused: bool)
    requires Frozen(s) && (action.PersistenceCommitted? ==> action.sequence !in s.deferred)
    ensures Stands(s, Reduce(s, action, refused).state)
  {
    if Persists(action) {
      PersistsStand(s, action, refused);
    } else if s.durability.Failed? {
      FailedStands(s, action, refused);
    } else if Plans(action) {
      PlansStand(s, action, refused);
    } else {
      OthersStand(s, action, refused);
    }
  }

  lemma ShotsWait(s: State, operation: Operation, refused: bool)
    requires s.deferred != map[]
    ensures Step(s, Shot(operation, refused)).state == s
  {
  }

  /** The receipt of the staged operation has not come yet. */
  predicate Awaits(inputs: seq<Input>, sequence: nat) {
    forall i :: 0 <= i < |inputs| ==> !IsReceipt(inputs[i], sequence)
  }

  predicate IsReceipt(input: Input, sequence: nat) {
    input.Act? && input.action == PersistenceCommitted(sequence)
  }

  /** Until its receipt, the staged operation stays the only one, under the highest sequence, over the same items. */
  lemma {:induction false} StagedItemsStand(s: State, inputs: seq<Input>, sequence: nat)
    requires Inv(s) && sequence in s.deferred && Awaits(inputs, sequence)
    ensures Inv(After(s, inputs)) && Stands(s, After(s, inputs))
    ensures After(s, inputs).deferred.Keys == {sequence} && After(s, inputs).highest == sequence
  {
    if inputs != [] {
      var before, input := inputs[..|inputs| - 1], inputs[|inputs| - 1];
      StagedItemsStand(s, before, sequence);
      GoodSteps(After(s, before), input);
      StepStands(After(s, before), input, sequence);
    }
  }

  lemma StepStands(s: State, input: Input, sequence: nat)
    requires Inv(s) && s.deferred.Keys == {sequence}
    requires !IsReceipt(input, sequence)
    ensures Stands(s, Step(s, input).state)
  {
    match input
    case Act(action, refused) => FrozenWhileStagedOrFailed(s, action, refused);
    case Shot(operation, refused) => ShotsWait(s, operation, refused);
  }

  /** The receipt applies the staged removal to exactly the items it was built against. */
  lemma StagedAppliesToItsItems(s: State, inputs: seq<Input>, sequence: nat, refused: bool)
    requires Inv(s) && sequence in s.deferred && Awaits(inputs, sequence)
    ensures var t := After(s, inputs);
            var o := Reduce(t, PersistenceCommitted(sequence), refused);
            if o.ok then
              && Mutated(s.board.thoughts, s.deferred[sequence].forward) == Some(o.state.board.thoughts)
              && o.state.deferred == map[] && o.state.history == Take(s.history, s.cursor) + [s.deferred[sequence]]
            else o.state == t
  {
    StagedItemsStand(s, inputs, sequence);
    ReceiptApplies(After(s, inputs), sequence, refused);
  }

  lemma ReceiptApplies(t: State, sequence: nat, refused: bool)
    requires t.deferred.Keys == {sequence}
    ensures var o := Reduce(t, PersistenceCommitted(sequence), refused);
            if o.ok then
              && Mutated(t.board.thoughts, t.deferred[sequence].forward) == Some(o.state.board.thoughts)
              && o.state.deferred == map[] && o.state.history == Take(t.history, t.cursor) + [t.deferred[sequence]]
            else o.state == t
  {
    PersistenceApplies(t, sequence, refused);
  }

  lemma PersistenceApplies(t: State, sequence: nat, refused: bool)
    requires t.deferred.Keys == {sequence}
    ensures var o := Persistence(t, PersistenceCommitted(sequence), refused);
            if o.ok then
              && Mutated(t.board.thoughts, t.deferred[sequence].forward) == Some(o.state.board.thoughts)
              && o.state.deferred == map[] && o.state.history == Take(t.history, t.cursor) + [t.deferred[sequence]]
            else o.state == t
  {
    assert t.deferred - {sequence} == map[];
  }
}
